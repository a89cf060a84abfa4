/** Account isolation: a step run under one account leaves the trade count and the loss
    baselines of every other account as they were. */
module Isolation {
  import opened Types
  import opened AccountKeys
  import opened Pipeline
  import opened Machine
  import opened Safety
  import opened Certified
  import opened Audit

  lemma {:induction false} CountSame(execs: seq<Execution>, e: nat, x: Execution, key: string, since: int)
    requires e < |execs| && Counted(x, key, since) == Counted(execs[e], key, since)
    ensures CountTrades(execs[e := x], key, since) == CountTrades(execs, key, since)
    decreases |execs|
  {
    var n := |execs| - 1;
    if e < n {
      CountSame(execs[..n], e, x, key, since);
      assert execs[e := x][..n] == execs[..n][e := x];
    } else {
      assert execs[e := x][..n] == execs[..n];
    }
  }

  lemma CountAppend(execs: seq<Execution>, x: Execution, key: string, since: int)
    ensures CountTrades(execs + [x], key, since) == CountTrades(execs, key, since) + if Counted(x, key, since) then 1 else 0
  {
    assert (execs + [x])[..|execs|] == execs;
  }

  /** The daily state of one account key. */
  ghost predicate SameDailyState(t: Tables, q: Tables, key: string) {
    && (forall since :: CountTrades(q.execs, key, since) == CountTrades(t.execs, key, since))
    && (forall day: int :: (key, day) in q.baselines <==> (key, day) in t.baselines)
    && (forall day: int | (key, day) in q.baselines && (key, day) in t.baselines :: q.baselines[(key, day)] == t.baselines[(key, day)])
  }

  /** The row that an effect writes counts for `key` neither before nor after. */
  predicate Foreign(t: Tables, f: Effect, key: string) {
    match f
    case InsertExec(x) => !CountsAsTrade(x.status)
    case UpdateExec(e, fields) =>
      e < |t.execs| ==>
        && !(CountsAsTrade(t.execs[e].status) && t.execs[e].accountKey == Some(key))
        && !(CountsAsTrade(Patch(t.execs[e], fields).status) && Patch(t.execs[e], fields).accountKey == Some(key))
    case StoreBaseline(b, _) => b.0 != key
    case _ => true
  }

  lemma ForeignEffect(t: Tables, f: Effect, key: string)
    requires Foreign(t, f, key)
    ensures SameDailyState(t, PerformOn(t, f), key)
  {
    forall since
      ensures CountTrades(PerformOn(t, f).execs, key, since) == CountTrades(t.execs, key, since)
    {
      match f
      case InsertExec(x) => CountAppend(t.execs, x, key, since);
      case UpdateExec(e, fields) =>
        if e < |t.execs| {
          CountSame(t.execs, e, Patch(t.execs[e], fields), key, since);
        }
      case _ =>
    }
  }

  /** The account an attempt acts for when it takes this step, if it already knows it. */
  function ActsFor(w: World, e: Event): Option<Account> {
    if e.Advance? && e.k < |w.workers| && w.workers[e.k].Running? then w.workers[e.k].job.seen.account else None
  }

  predicate SameAccount(a: Account, b: Account) {
    a.server == b.server && a.login == b.login
  }

  /** The key in an attempt's hands, once it has one, is its account's. */
  lemma KeyOfAttempt(cfg: Settings, s: Step, j: Job, b: Account)
    requires JobCertified(cfg, s, j) && Evaluated(s, j.outcome) > 6
    requires AccountKeyFor(b).Some? && (j.seen.account.Some? ==> !SameAccount(j.seen.account.value, b))
    ensures Some(Key(j.seen)) != AccountKeyFor(b)
  {
    KeyGatesPassed(cfg, s, j);
    AccountKeysSeparate(j.seen.account.value, b);
  }

  lemma KeyGatesPassed(cfg: Settings, s: Step, j: Job)
    requires JobCertified(cfg, s, j) && Evaluated(s, j.outcome) > 6
    ensures j.seen.account.Some? && j.seen.key == AccountKeyFor(j.seen.account.value) && j.seen.key.Some?
  {
    var fails := Failing(cfg, j.payload, j.seen);
    assert Rank(AccountKnown) == 4 && Rank(AccountNamed) == 5;
    assert AccountKnown !in fails && AccountNamed !in fails;
  }

  /** What the effects of one step say about the attempt that takes it. */
  lemma EffectBelongs(cfg: Settings, t: Tables, s: Step, j: Job, a: Answer)
    requires j.row < |t.signals| && OutcomeOk(s, j.outcome)
    ensures var f := Decide(cfg, t, s, j, a).effect;
      && (f.InsertExec? ==> f.record.status == Processing)
      && (f.UpdateExec? ==> !s.Insert? && !s.FinishSignal?)
      && (f.UpdateExec? && f.fields.FinishFields? ==>
            && s.FinishExec? && f.exec == j.exec && f.fields.status == OutcomeStatus(j.outcome)
            && (CountsAsTrade(f.fields.status) ==> j.outcome.Sent?))
      && (f.UpdateExec? && !f.fields.FinishFields? ==> f.exec == j.exec)
      && (f.StoreBaseline? ==> f.key == BaselineKeyOf(j.seen) && s.WriteBaseline?)
  {
  }

  lemma SentRowKey(cfg: Settings, t: Tables, j: Job)
    requires JobTells(cfg, t, FinishExec, j) && j.outcome.Sent?
    ensures t.execs[j.exec].accountKey == Some(Key(j.seen))
  {
  }

  lemma StepIsForeign(cfg: Settings, t: Tables, s: Step, j: Job, a: Answer, b: Account)
    requires j.row < |t.signals| && OutcomeOk(s, j.outcome) && JobCertified(cfg, s, j) && JobTells(cfg, t, s, j)
    requires !s.Insert? && !s.FinishSignal? ==> j.exec < |t.execs| && t.execs[j.exec].status == Processing
    requires AccountKeyFor(b).Some? && (j.seen.account.Some? ==> !SameAccount(j.seen.account.value, b))
    ensures Foreign(t, Decide(cfg, t, s, j, a).effect, AccountKeyFor(b).value)
  {
    hide Decide, Failing, Consistent, JobTells, JobCertified, AccountKeyFor;
    if s.FinishExec? && j.outcome.Sent? {
      SentRowKey(cfg, t, j);
    }
    var f := Decide(cfg, t, s, j, a).effect;
    EffectBelongs(cfg, t, s, j, a);
    if f.StoreBaseline? || (f.UpdateExec? && f.fields.FinishFields? && j.outcome.Sent?) {
      KeyOfAttempt(cfg, s, j, b);
    }
  }

  lemma OtherMovesKeepDailyState(cfg: Settings, w: World, e: Event)
    requires !e.Submit? && !e.PositionClosed? && e.k < |w.workers|
    requires !(e.Advance? && w.workers[e.k].Running? && w.workers[e.k].job.row < |w.t.signals|)
    ensures Apply(cfg, w, e).t.execs == w.t.execs && Apply(cfg, w, e).t.baselines == w.t.baselines
  {
  }

  lemma AdvanceEffect(cfg: Settings, w: World, k: nat, a: Answer)
    requires k < |w.workers| && w.workers[k].Running? && w.workers[k].job.row < |w.t.signals|
    ensures Apply(cfg, w, Advance(k, a)).t == PerformOn(w.t, Decide(cfg, w.t, w.workers[k].step, w.workers[k].job, a).effect)
  {
  }

  /** In every run of any number of workers, an event changes the daily state of an account
      only if it is a step of an attempt that acts for that very server and login. */
  lemma AccountsAreIsolated(cfg: Settings, n: nat, w: World, e: Event, b: Account)
    requires Reachable(cfg, n, w)
    requires AccountKeyFor(b).Some?
    ensures (ActsFor(w, e).Some? ==> !SameAccount(ActsFor(w, e).value, b)) ==>
        SameDailyState(w.t, Apply(cfg, w, e).t, AccountKeyFor(b).value)
  {
    ReachableIsSafe(cfg, n, w);
    ReachableIsCertified(cfg, n, w);
    ReachableKeepsTrail(cfg, n, w);
    IsolatedStep(cfg, w, e, b);
  }

  lemma IsolatedStep(cfg: Settings, w: World, e: Event, b: Account)
    requires Safe(cfg, w) && AllCertified(cfg, w) && Trail(cfg, w) && AccountKeyFor(b).Some?
    ensures (ActsFor(w, e).Some? ==> !SameAccount(ActsFor(w, e).value, b)) ==>
      SameDailyState(w.t, Apply(cfg, w, e).t, AccountKeyFor(b).value)
  {
    hide Decide, JobCertified, JobTells, RowCoupled, Exposed, Traced, AccountKeyFor, Foreign;
    if e.Advance? && e.k < |w.workers| && w.workers[e.k].Running? && w.workers[e.k].job.row < |w.t.signals| {
      var s, j := w.workers[e.k].step, w.workers[e.k].job;
      assert PhaseOk(w, w.workers[e.k]) && AttemptOpen(w, s, j);
      assert JobCertified(cfg, s, j) && JobTells(cfg, w.t, s, j);
      if j.seen.account.Some? ==> !SameAccount(j.seen.account.value, b) {
        StepIsForeign(cfg, w.t, s, j, e.answer, b);
        ForeignEffect(w.t, Decide(cfg, w.t, s, j, e.answer).effect, AccountKeyFor(b).value);
        AdvanceEffect(cfg, w, e.k, e.answer);
      }
    } else if !e.Submit? && !e.PositionClosed? && e.k < |w.workers| {
      OtherMovesKeepDailyState(cfg, w, e);
    }
  }
}
