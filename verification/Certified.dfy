/** Every order was certified: all gates passed on what its attempt observed, and every
    attempt that stops does so with the first failing gate of the declared order. */
module Certified {
  import opened Types
  import opened Risk
  import opened Sizing
  import opened AccountKeys
  import opened Pipeline
  import opened Machine
  import opened Safety

  /** Two observations agree on everything that the first `n` gates read. */
  predicate Agree(o: Observed, q: Observed, n: nat) {
    && (n > 0 ==> o.now == q.now)
    && (n > 3 ==> o.connected == q.connected && o.account == q.account && o.key == q.key)
    && (n > 6 ==> o.info == q.info && o.tick == q.tick)
    && (n > 8 ==> o.brokerNow == q.brokerNow)
    && (n > 11 ==> o.trades == q.trades)
    && (n > 12 ==> o.positions == q.positions)
    && (n > 14 ==> o.baseline == q.baseline && o.profit == q.profit && o.sized == q.sized)
    && (n > 17 ==> o.check == q.check)
  }

  lemma SameGate(cfg: Settings, p: Payload, o: Observed, q: Observed, n: nat, g: Gate)
    requires Agree(o, q, n) && Rank(g) < n
    ensures GateResult(cfg, p, o, g) == GateResult(cfg, p, q, g)
  {
    match g
    case _ =>
  }

  lemma SameBelow(cfg: Settings, p: Payload, o: Observed, q: Observed, n: nat)
    requires Agree(o, q, n) && PassedBelow(Failing(cfg, p, o), n)
    ensures PassedBelow(Failing(cfg, p, q), n)
  {
    forall g | g in Failing(cfg, p, q)
      ensures n <= Rank(g)
    {
      if Rank(g) < n {
        SameGate(cfg, p, o, q, n, g);
      }
    }
  }

  /** How many gates have been evaluated. */
  function Evaluated(s: Step, c: Outcome): nat {
    match c
    case Undecided => GatesBefore(s)
    case Stopped(g, _) => Rank(g) + 1
    case Sent(_) => GATES
  }

  /** The kept results are the ones computed from the observations. */
  predicate Consistent(p: Payload, o: Observed, n: nat) {
    && (n > 3 ==> o.key == AccountKey(o))
    && (n > 14 ==> o.sized == VolumeOf(p, o))
  }

  /** The account is known, and so is the broker's time. */
  predicate Located(o: Observed) {
    o.account.Some? && Known(o.account.value) && o.brokerNow.Some?
  }

  /** The key of the daily state: the account's name and the broker's day, counted in whole
      days of its own clock. */
  function DailyKey(o: Observed): BaselineKey
    requires Located(o)
  {
    (NameOf(o.account.value), o.brokerNow.value / 86_400_000_000)
  }

  lemma GateIsPassed(cfg: Settings, p: Payload, o: Observed, n: nat, g: Gate)
    requires PassedBelow(Failing(cfg, p, o), n) && Rank(g) < n
    ensures GateResult(cfg, p, o, g).None?
  {
    hide GateResult;
    assert g !in Failing(cfg, p, o);
  }

  lemma PassedLocates(cfg: Settings, p: Payload, o: Observed, n: nat)
    requires PassedBelow(Failing(cfg, p, o), n) && n > 8 && o.key == AccountKey(o)
    ensures Located(o) && o.info.Some? && o.tick.Some?
  {
    hide Known, NameOf, AccountKeyFor;
    GateIsPassed(cfg, p, o, n, AccountKnown);
    GateIsPassed(cfg, p, o, n, AccountNamed);
    GateIsPassed(cfg, p, o, n, SymbolUsable);
    GateIsPassed(cfg, p, o, n, TickKnown);
    GateIsPassed(cfg, p, o, n, BrokerTimeKnown);
    KeyOfKnown(o.account.value);
  }

  /** What an attempt derives from where it is located. */
  lemma LocatedIs(o: Observed)
    requires Located(o) && o.key == AccountKey(o)
    ensures Key(o) == NameOf(o.account.value) && Equity(o) == o.account.value.equity
    ensures BaselineKeyOf(o) == DailyKey(o)
    ensures forall d :: IsMidnightOf(d, o.brokerNow.value) <==> d == DayStart(o)
  {
    hide Known, NameOf;
    KeyOfKnown(o.account.value);
    DayStartIsMidnight(o.brokerNow.value);
  }

  lemma OrderLocated(cfg: Settings, o: Order)
    requires OrderCertified(cfg, o)
    ensures Located(o.seen) && o.seen.key == AccountKey(o.seen) && o.seen.info.Some? && o.seen.tick.Some?
  {
    PassedLocates(cfg, o.payload, o.seen, GATES);
  }

  ghost predicate JobCertified(cfg: Settings, s: Step, j: Job) {
    var fails := Failing(cfg, j.payload, j.seen);
    && Consistent(j.payload, j.seen, Evaluated(s, j.outcome))
    && match j.outcome
    case Undecided => PassedBelow(fails, GatesBefore(s))
    case Stopped(g, status) => IsFirst(fails, g) && Some(status) == GateResult(cfg, j.payload, j.seen, g)
    case Sent(o) => fails == {} && o.payload == j.payload && o.seen == j.seen
  }

  ghost predicate OrderCertified(cfg: Settings, o: Order) {
    Failing(cfg, o.payload, o.seen) == {} && Consistent(o.payload, o.seen, GATES) && o.request == OrderRequest(cfg, o.payload, o.seen)
  }

  ghost predicate AllCertified(cfg: Settings, w: World) {
    && (forall k | 0 <= k < |w.workers| && w.workers[k].Running? :: JobCertified(cfg, w.workers[k].step, w.workers[k].job))
    && (forall n | 0 <= n < |w.orders| :: OrderCertified(cfg, w.orders[n]))
  }

  ghost predicate MoveCertified(cfg: Settings, m: Move) {
    && (m.phase.Running? ==> JobCertified(cfg, m.phase.step, m.phase.job))
    && (m.effect.SendOrder? ==> OrderCertified(cfg, m.effect.order))
  }

  lemma StopCertified(cfg: Settings, job: Job, from: nat, until: nat, g: Gate)
    requires from <= until <= GATES && job.outcome.Undecided? && PassedBelow(Failing(cfg, job.payload, job.seen), from)
    requires FirstIn(Failing(cfg, job.payload, job.seen), from, until) == Some(g)
    requires Consistent(job.payload, job.seen, until)
    ensures JobCertified(cfg, FinishExec, job.(outcome := Stopped(g, GateResult(cfg, job.payload, job.seen, g).value)))
  {
  }

  lemma PassCertified(cfg: Settings, job: Job, from: nat, until: nat, next: Step)
    requires from <= until <= GATES && GatesBefore(next) == until && job.outcome.Undecided?
    requires PassedBelow(Failing(cfg, job.payload, job.seen), from) && Consistent(job.payload, job.seen, until)
    requires FirstIn(Failing(cfg, job.payload, job.seen), from, until).None?
    ensures JobCertified(cfg, next, job)
  {
  }

  lemma ThroughCertified(cfg: Settings, o: Observed, job: Job, from: nat, until: nat, effect: Effect, next: Step)
    requires from <= until <= GATES && GatesBefore(next) == until && !effect.SendOrder? && job.outcome.Undecided?
    requires Agree(o, job.seen, from) && PassedBelow(Failing(cfg, job.payload, o), from)
    requires Consistent(job.payload, job.seen, until)
    ensures MoveCertified(cfg, Through(cfg, job, from, until, effect, next))
  {
    hide Failing, Agree, Consistent, FirstIn, JobCertified, PassedBelow;
    SameBelow(cfg, job.payload, o, job.seen, from);
    var r := FirstIn(Failing(cfg, job.payload, job.seen), from, until);
    match r
    case None => PassCertified(cfg, job, from, until, next);
    case Some(g) => StopCertified(cfg, job, from, until, g);
  }

  lemma SendCertified(cfg: Settings, t: Tables, job: Job, a: Answer)
    requires job.row < |t.signals| && job.outcome.Undecided? && PassedBelow(Failing(cfg, job.payload, job.seen), 17)
    requires Consistent(job.payload, job.seen, GATES)
    ensures MoveCertified(cfg, Decide(cfg, t, Send, job, a))
  {
    var fails := Failing(cfg, job.payload, job.seen);
    assert forall g | g in fails :: 17 <= Rank(g) < 19;
    assert FirstIn(fails, 17, 19).None? ==> fails == {};
  }

  lemma BaselineCertified(cfg: Settings, t: Tables, s: Step, job: Job, a: Answer)
    requires job.row < |t.signals| && JobCertified(cfg, s, job) && OutcomeOk(s, job.outcome)
    requires s.ReadBaseline? || s.WriteBaseline?
    ensures MoveCertified(cfg, Decide(cfg, t, s, job, a))
  {
    var o, p := job.seen, job.payload;
    var b := BaselineKeyOf(o);
    if s.WriteBaseline? {
      SameBelow(cfg, p, o, o.(baseline := Equity(o)), 14);
    } else if b in t.baselines {
      SameBelow(cfg, p, o, o.(baseline := t.baselines[b]), 14);
    }
  }

  lemma EarlyCertified(cfg: Settings, t: Tables, s: Step, job: Job, a: Answer)
    requires job.row < |t.signals| && JobCertified(cfg, s, job) && job.outcome.Undecided? && Early(s)
    ensures MoveCertified(cfg, Decide(cfg, t, s, job, a))
  {
    hide Through, FirstIn, GateResult, CalculateVolume;
    var o, p := job.seen, job.payload;
    match s
    case Admit =>
      ThroughCertified(cfg, o, job.(seen := o.(now := a.seen.now)), 0, 3, UpdateExec(job.exec, SymbolField(MappedSymbol(cfg, p))), Normalize);
    case Identify =>
      var j := job.(seen := Identified(o, a.seen));
      ThroughCertified(cfg, o, j, 3, 6, UpdateExec(j.exec, AccountField(Key(j.seen))), Quote);
    case Quote =>
      var j := job.(seen := o.(info := a.seen.info, tick := a.seen.tick));
      ThroughCertified(cfg, o, j, 6, 8, UpdateExec(j.exec, EntryField(EntryPrice(p, j.seen))), Guard);
    case Guard =>
      ThroughCertified(cfg, o, job.(seen := o.(brokerNow := a.seen.brokerNow)), 8, 11, NoEffect, CountDay);
    case CountDay =>
      var j := job.(seen := o.(trades := CountTrades(t.execs, Key(o), DayStart(o))));
      ThroughCertified(cfg, o, j, 11, 12, NoEffect, CountPositions);
    case _ =>
  }

  predicate Closing(s: Step) {
    s.RecordCheck? || s.RecordSend? || s.FinishExec? || s.FinishSignal?
  }

  lemma ClosingCertified(cfg: Settings, t: Tables, s: Step, job: Job, a: Answer)
    requires job.row < |t.signals| && JobCertified(cfg, s, job) && OutcomeOk(s, job.outcome)
    requires Closing(s) && (s.RecordSend? ==> job.outcome.Sent?)
    ensures MoveCertified(cfg, Decide(cfg, t, s, job, a))
  {
    hide Failing, Consistent;
  }

  lemma CheckCertified(cfg: Settings, t: Tables, job: Job, a: Answer)
    requires job.row < |t.signals| && JobCertified(cfg, Check, job) && job.outcome.Undecided?
    ensures MoveCertified(cfg, Decide(cfg, t, Check, job, a))
  {
    hide Failing, GateResult, CalculateVolume;
    SameBelow(cfg, job.payload, job.seen, job.seen.(check := a.seen.check), 17);
  }

  lemma LateCertified(cfg: Settings, t: Tables, s: Step, job: Job, a: Answer)
    requires job.row < |t.signals| && JobCertified(cfg, s, job) && job.outcome.Undecided? && (s.CountPositions? || s.Size?)
    ensures MoveCertified(cfg, Decide(cfg, t, s, job, a))
  {
    hide Through, FirstIn, GateResult, CalculateVolume;
    var o, p := job.seen, job.payload;
    if s.Size? {
      var j := job.(seen := Priced(p, o, a.seen));
      ThroughCertified(cfg, o, j, 14, 17, UpdateExec(j.exec, VolumeField(PlannedVolume(j.seen))), Check);
    } else {
      ThroughCertified(cfg, o, job.(seen := o.(positions := a.seen.positions)), 12, 14, NoEffect, ReadBaseline);
    }
  }

  lemma DecideCertified(cfg: Settings, t: Tables, s: Step, job: Job, a: Answer)
    requires job.row < |t.signals| && JobCertified(cfg, s, job) && OutcomeOk(s, job.outcome)
    requires s.RecordSend? ==> job.outcome.Sent?
    ensures MoveCertified(cfg, Decide(cfg, t, s, job, a))
  {
    hide Through, FirstIn, GateResult, CalculateVolume, Decide, MoveCertified;
    match s
    case CountPositions => LateCertified(cfg, t, s, job, a);
    case ReadBaseline => BaselineCertified(cfg, t, s, job, a);
    case WriteBaseline => BaselineCertified(cfg, t, s, job, a);
    case Size => LateCertified(cfg, t, s, job, a);
    case Check => CheckCertified(cfg, t, job, a);
    case Send => SendCertified(cfg, t, job, a);
    case _ =>
      if Early(s) {
        EarlyCertified(cfg, t, s, job, a);
      } else {
        ClosingCertified(cfg, t, s, job, a);
      }
  }

  lemma {:induction false} RunIsCertified(cfg: Settings, n: nat, open: nat, events: seq<Event>)
    ensures AllCertified(cfg, Run(cfg, Initial(n, open), events))
  {
    if events != [] {
      var last := |events| - 1;
      var w, e := Run(cfg, Initial(n, open), events[..last]), events[last];
      RunIsCertified(cfg, n, open, events[..last]);
      RunIsSafe(cfg, n, open, events[..last]);
      if !e.Submit? && !e.PositionClosed? && e.k < |w.workers| {
        assert PhaseOk(w, w.workers[e.k]);
        if e.Advance? && w.workers[e.k].Running? {
          var s, j := w.workers[e.k].step, w.workers[e.k].job;
          assert JobCertified(cfg, s, j);
          DecideCertified(cfg, w.t, s, j, e.answer);
        }
        PerformCertified(cfg, w, e.k, Choose(cfg, w, e));
      }
    }
  }

  lemma PerformCertified(cfg: Settings, w: World, k: nat, m: Move)
    requires AllCertified(cfg, w) && k < |w.workers| && MoveCertified(cfg, m)
    ensures AllCertified(cfg, Perform(w, k, m))
  {
    var v := Perform(w, k, m);
    forall l | 0 <= l < |v.workers| && v.workers[l].Running?
      ensures JobCertified(cfg, v.workers[l].step, v.workers[l].job)
    {
      if l != k {
        assert JobCertified(cfg, w.workers[l].step, w.workers[l].job);
      }
    }
    forall n | 0 <= n < |v.orders|
      ensures OrderCertified(cfg, v.orders[n])
    {
      if n < |w.orders| {
        assert OrderCertified(cfg, w.orders[n]);
      }
    }
  }

  lemma ReachableIsCertified(cfg: Settings, n: nat, w: World)
    requires Reachable(cfg, n, w)
    ensures AllCertified(cfg, w)
  {
    hide Run, Initial, AllCertified;
    var open: nat, events: seq<Event> :| w == Run(cfg, Initial(n, open), events);
    RunIsCertified(cfg, n, open, events);
  }
}
