/** What an attempt leaves behind outside its own two rows, in every run of any number of
    workers: one call of `order_check` for the very request it would send, and the daily loss
    baseline of its account and broker day, each exactly when it has got that far. */
module Effects {
  import opened Types
  import opened AccountKeys
  import opened Pipeline
  import opened Machine
  import opened Safety
  import opened Certified

  /** The attempt has asked the broker to check its request. */
  predicate Asked(s: Step, c: Outcome) {
    match c
    case Undecided => s.RecordCheck? || s.Send?
    case Stopped(g, _) => Rank(g) >= 17
    case Sent(_) => true
  }

  /** The attempt has read or written the baseline of its day. */
  predicate Anchored(s: Step, c: Outcome) {
    match c
    case Undecided => s.Size? || s.Check? || s.RecordCheck? || s.Send?
    case Stopped(g, _) => Rank(g) >= 14
    case Sent(_) => true
  }

  function InquiryOf(cfg: Settings, j: Job): Inquiry {
    Inquiry(j.row, j.exec, OrderRequest(cfg, j.payload, j.seen), j.seen.check)
  }

  ghost predicate NoInquiry(checks: seq<Inquiry>, exec: nat) {
    forall n | 0 <= n < |checks| :: checks[n].exec != exec
  }

  /** The account's key and the broker's day, counted in days of 86400 seconds. */
  function KeptKey(o: Observed): BaselineKey {
    (o.key.GetOr(""), o.brokerNow.GetOr(0) / 86_400_000_000)
  }

  ghost predicate JobEffects(cfg: Settings, t: Tables, checks: seq<Inquiry>, s: Step, j: Job) {
    && (Anchored(s, j.outcome) ==> KeptKey(j.seen) in t.baselines)
    && (!s.Insert? ==> if Asked(s, j.outcome) then InquiryOf(cfg, j) in checks else NoInquiry(checks, j.exec))
  }

  /** The broker checked this very request, in the attempt that sent it, with this code. */
  ghost predicate OrderEffects(t: Tables, checks: seq<Inquiry>, o: Order) {
    KeptKey(o.seen) in t.baselines && Inquiry(o.row, o.exec, o.request, o.seen.check) in checks
  }

  /** One inquiry per attempt at most. */
  ghost predicate Inquiries(w: World) {
    && (forall n | 0 <= n < |w.checks| :: w.checks[n].exec < |w.t.execs| && w.t.execs[w.checks[n].exec].signal == w.checks[n].row)
    && (forall m, n | 0 <= m < n < |w.checks| :: w.checks[m].exec != w.checks[n].exec)
  }

  ghost predicate Effected(cfg: Settings, w: World) {
    && Inquiries(w)
    && (forall k | 0 <= k < |w.workers| && w.workers[k].Running? ::
          JobEffects(cfg, w.t, w.checks, w.workers[k].step, w.workers[k].job))
    && (forall n | 0 <= n < |w.orders| :: OrderEffects(w.t, w.checks, w.orders[n]))
  }

  function ChecksAfter(checks: seq<Inquiry>, f: Effect): seq<Inquiry> {
    if f.AskCheck? then checks + [f.inquiry] else checks
  }

  lemma ThroughEffects(cfg: Settings, t: Tables, checks: seq<Inquiry>, x: Job, from: nat, until: nat, effect: Effect, next: Step)
    requires from <= until <= GATES && x.outcome.Undecided? && !next.Insert? && !effect.AskCheck?
    requires from < 14 ==> until <= 14 && !Anchored(next, Undecided)
    requires until <= 17 && !Asked(next, Undecided) && NoInquiry(checks, x.exec)
    requires from >= 14 ==> KeptKey(x.seen) in t.baselines
    ensures var m := Through(cfg, x, from, until, effect, next);
      m.phase.Running? && JobEffects(cfg, PerformOn(t, m.effect), ChecksAfter(checks, m.effect), m.phase.step, m.phase.job)
  {
    hide Failing, OrderRequest;
    BaselinesGrow(t, effect);
  }

  lemma BaselinesGrow(t: Tables, f: Effect)
    ensures forall key | key in t.baselines :: key in PerformOn(t, f).baselines
  {
  }

  lemma EarlyEffects(cfg: Settings, t: Tables, checks: seq<Inquiry>, s: Step, j: Job, a: Answer)
    requires j.row < |t.signals| && JobEffects(cfg, t, checks, s, j) && Early(s) && j.outcome.Undecided?
    requires s.Insert? ==> forall n | 0 <= n < |checks| :: checks[n].exec < |t.execs|
    ensures var m := Decide(cfg, t, s, j, a);
      m.phase.Running? && JobEffects(cfg, PerformOn(t, m.effect), ChecksAfter(checks, m.effect), m.phase.step, m.phase.job)
  {
    hide Through, Failing, OrderRequest, JobEffects;
    var o, p := j.seen, j.payload;
    match s
    case Insert => InsertEffects(cfg, t, checks, j, a);
    case Admit =>
      QuietEffects(cfg, t, checks, s, j);
      ThroughEffects(cfg, t, checks, j.(seen := o.(now := a.seen.now)), 0, 3,
                     UpdateExec(j.exec, SymbolField(MappedSymbol(cfg, p))), Normalize);
    case Normalize => PlainEffects(cfg, t, checks, s, j, a);
    case Identify =>
      QuietEffects(cfg, t, checks, s, j);
      var x := j.(seen := Identified(o, a.seen));
      ThroughEffects(cfg, t, checks, x, 3, 6, UpdateExec(x.exec, AccountField(Key(x.seen))), Quote);
    case Quote =>
      QuietEffects(cfg, t, checks, s, j);
      var x := j.(seen := o.(info := a.seen.info, tick := a.seen.tick));
      ThroughEffects(cfg, t, checks, x, 6, 8, UpdateExec(x.exec, EntryField(EntryPrice(p, x.seen))), Guard);
    case Guard =>
      QuietEffects(cfg, t, checks, s, j);
      ThroughEffects(cfg, t, checks, j.(seen := o.(brokerNow := a.seen.brokerNow)), 8, 11, NoEffect, CountDay);
    case CountDay =>
      QuietEffects(cfg, t, checks, s, j);
      var x := j.(seen := o.(trades := CountTrades(t.execs, Key(o), DayStart(o))));
      ThroughEffects(cfg, t, checks, x, 11, 12, NoEffect, CountPositions);
  }

  lemma QuietEffects(cfg: Settings, t: Tables, checks: seq<Inquiry>, s: Step, j: Job)
    requires JobEffects(cfg, t, checks, s, j) && !s.Insert? && !Asked(s, j.outcome)
    ensures NoInquiry(checks, j.exec)
  {
  }

  lemma InsertEffects(cfg: Settings, t: Tables, checks: seq<Inquiry>, j: Job, a: Answer)
    requires j.row < |t.signals| && j.outcome.Undecided?
    requires forall n | 0 <= n < |checks| :: checks[n].exec < |t.execs|
    ensures var m := Decide(cfg, t, Insert, j, a);
      m.phase.Running? && JobEffects(cfg, PerformOn(t, m.effect), ChecksAfter(checks, m.effect), m.phase.step, m.phase.job)
  {
  }

  predicate Plain(s: Step) {
    s.Normalize? || s.ReadBaseline? || s.WriteBaseline? || s.Check? || s.RecordCheck? || s.RecordSend? || s.FinishExec?
  }

  lemma PlainEffects(cfg: Settings, t: Tables, checks: seq<Inquiry>, s: Step, j: Job, a: Answer)
    requires j.row < |t.signals| && JobEffects(cfg, t, checks, s, j) && Plain(s) && OutcomeOk(s, j.outcome)
    ensures var m := Decide(cfg, t, s, j, a);
      m.phase.Running? && JobEffects(cfg, PerformOn(t, m.effect), ChecksAfter(checks, m.effect), m.phase.step, m.phase.job)
  {
    hide Failing;
  }

  lemma SizeEffects(cfg: Settings, t: Tables, checks: seq<Inquiry>, j: Job, a: Answer)
    requires j.row < |t.signals| && JobEffects(cfg, t, checks, Size, j) && j.outcome.Undecided?
    ensures var m := Decide(cfg, t, Size, j, a);
      m.phase.Running? ==> JobEffects(cfg, PerformOn(t, m.effect), ChecksAfter(checks, m.effect), m.phase.step, m.phase.job)
  {
    var x := j.(seen := Priced(j.payload, j.seen, a.seen));
    hide Through, Failing, OrderRequest;
    ThroughEffects(cfg, t, checks, x, 14, 17, UpdateExec(x.exec, VolumeField(PlannedVolume(x.seen))), Check);
  }

  lemma SendEffects(cfg: Settings, t: Tables, checks: seq<Inquiry>, j: Job, a: Answer)
    requires j.row < |t.signals| && JobEffects(cfg, t, checks, Send, j) && j.outcome.Undecided?
    ensures var m := Decide(cfg, t, Send, j, a);
      && m.phase.Running? && JobEffects(cfg, PerformOn(t, m.effect), ChecksAfter(checks, m.effect), m.phase.step, m.phase.job)
      && (m.effect.SendOrder? ==> OrderEffects(t, checks, m.effect.order))
  {
    hide Failing, OrderRequest;
  }

  lemma DecideEffects(cfg: Settings, t: Tables, checks: seq<Inquiry>, s: Step, j: Job, a: Answer)
    requires j.row < |t.signals| && JobEffects(cfg, t, checks, s, j) && OutcomeOk(s, j.outcome)
    requires s.Insert? ==> forall n | 0 <= n < |checks| :: checks[n].exec < |t.execs|
    ensures var m := Decide(cfg, t, s, j, a);
      && (m.phase.Running? ==> JobEffects(cfg, PerformOn(t, m.effect), ChecksAfter(checks, m.effect), m.phase.step, m.phase.job))
      && (m.effect.SendOrder? ==> OrderEffects(t, checks, m.effect.order))
  {
    hide Through, Failing, OrderRequest, JobEffects, OrderEffects, VolumeOf;
    match s
    case CountPositions =>
      QuietEffects(cfg, t, checks, s, j);
      ThroughSends(cfg, j.(seen := j.seen.(positions := a.seen.positions)), 12, 14, NoEffect, ReadBaseline);
      ThroughEffects(cfg, t, checks, j.(seen := j.seen.(positions := a.seen.positions)), 12, 14, NoEffect, ReadBaseline);
    case Size =>
      SizeEffects(cfg, t, checks, j, a);
      OnlySendSends(cfg, t, s, j, a);
    case Send => SendEffects(cfg, t, checks, j, a);
    case FinishSignal =>
    case _ =>
      OnlySendSends(cfg, t, s, j, a);
      if Early(s) {
        EarlyEffects(cfg, t, checks, s, j, a);
      } else {
        PlainEffects(cfg, t, checks, s, j, a);
      }
  }

  lemma ThroughSends(cfg: Settings, x: Job, from: nat, until: nat, effect: Effect, next: Step)
    requires from <= until <= GATES && !effect.SendOrder?
    ensures !Through(cfg, x, from, until, effect, next).effect.SendOrder?
  {
  }

  lemma OnlySendSends(cfg: Settings, t: Tables, s: Step, j: Job, a: Answer)
    requires j.row < |t.signals|
    ensures Decide(cfg, t, s, j, a).effect.SendOrder? ==> s.Send?
  {
    hide Failing, VolumeOf, FirstIn;
  }

  // ---- every event ----

  lemma OrderEffectsKept(t: Tables, checks: seq<Inquiry>, f: Effect, o: Order)
    requires OrderEffects(t, checks, o)
    ensures OrderEffects(PerformOn(t, f), ChecksAfter(checks, f), o)
  {
    BaselinesGrow(t, f);
  }

  /** Another attempt's check is under another execution row. */
  lemma OtherEffectsKept(cfg: Settings, w: World, k: nat, m: Move, l: nat)
    requires Workers(w) && Attempts(w) && k < |w.workers| && Legal(w, k, m)
    requires l < |w.workers| && l != k && w.workers[l].Running?
    requires JobEffects(cfg, w.t, w.checks, w.workers[l].step, w.workers[l].job)
    ensures JobEffects(cfg, PerformOn(w.t, m.effect), ChecksAfter(w.checks, m.effect), w.workers[l].step, w.workers[l].job)
  {
    hide OrderRequest, PerformOn;
    var was, other := w.workers[k], w.workers[l];
    BaselinesGrow(w.t, m.effect);
    if m.effect.AskCheck? {
      assert OwnsExec(w, was.step, was.job) && OwnsExec(w, other.step, other.job);
      assert was.job.row != other.job.row;
    }
  }

  lemma InquiriesKept(cfg: Settings, w: World, k: nat, m: Move)
    requires Workers(w) && Attempts(w) && Inquiries(w) && k < |w.workers| && Legal(w, k, m)
    requires m.effect.AskCheck? ==> NoInquiry(w.checks, m.effect.inquiry.exec)
    ensures Inquiries(Perform(w, k, m))
  {
    TablesGrow(w, k, m);
    if m.effect.AskCheck? {
      assert OwnsExec(w, w.workers[k].step, w.workers[k].job);
    }
  }

  /** Only a fresh attempt asks. */
  lemma AskerIsFresh(cfg: Settings, t: Tables, checks: seq<Inquiry>, s: Step, j: Job, a: Answer)
    requires j.row < |t.signals| && JobEffects(cfg, t, checks, s, j) && OutcomeOk(s, j.outcome)
    ensures var f := Decide(cfg, t, s, j, a).effect;
      f.AskCheck? ==> s.Check? && f.inquiry.exec == j.exec && NoInquiry(checks, j.exec)
  {
    hide Failing, VolumeOf, FirstIn;
  }

  lemma MoveKeepsEffected(cfg: Settings, w: World, k: nat, m: Move)
    requires Workers(w) && Attempts(w) && Effected(cfg, w) && k < |w.workers| && Legal(w, k, m)
    requires m.effect.AskCheck? ==> NoInquiry(w.checks, m.effect.inquiry.exec)
    requires m.phase.Running? ==>
      JobEffects(cfg, PerformOn(w.t, m.effect), ChecksAfter(w.checks, m.effect), m.phase.step, m.phase.job)
    requires m.effect.SendOrder? ==> OrderEffects(w.t, w.checks, m.effect.order)
    ensures Effected(cfg, Perform(w, k, m))
  {
    hide JobEffects, OrderEffects, Inquiries, PerformOn, Legal;
    var v := Perform(w, k, m);
    InquiriesKept(cfg, w, k, m);
    forall l | 0 <= l < |v.workers| && v.workers[l].Running?
      ensures JobEffects(cfg, v.t, v.checks, v.workers[l].step, v.workers[l].job)
    {
      if l != k {
        assert JobEffects(cfg, w.t, w.checks, w.workers[l].step, w.workers[l].job);
        OtherEffectsKept(cfg, w, k, m, l);
      }
    }
    forall n | 0 <= n < |v.orders|
      ensures OrderEffects(v.t, v.checks, v.orders[n])
    {
      assert n < |w.orders| ==> OrderEffects(w.t, w.checks, w.orders[n]);
      OrderEffectsKept(w.t, w.checks, m.effect, v.orders[n]);
    }
  }

  lemma MoverEffects(cfg: Settings, w: World, e: Event)
    requires Queue(w) && Workers(w) && Attempts(w) && Effected(cfg, w)
    requires !e.Submit? && !e.PositionClosed? && e.k < |w.workers|
    ensures var m := Choose(cfg, w, e);
      && (m.effect.AskCheck? ==> NoInquiry(w.checks, m.effect.inquiry.exec))
      && (m.phase.Running? ==>
            JobEffects(cfg, PerformOn(w.t, m.effect), ChecksAfter(w.checks, m.effect), m.phase.step, m.phase.job))
      && (m.effect.SendOrder? ==> OrderEffects(w.t, w.checks, m.effect.order))
  {
    hide Decide, JobEffects, OrderEffects;
    var was := w.workers[e.k];
    assert PhaseOk(w, was);
    if e.Advance? && was.Running? {
      assert JobEffects(cfg, w.t, w.checks, was.step, was.job);
      DecideEffects(cfg, w.t, w.checks, was.step, was.job, e.answer);
      AskerIsFresh(cfg, w.t, w.checks, was.step, was.job, e.answer);
    } else {
      IdleEffects(cfg, w, e);
    }
  }

  lemma IdleEffects(cfg: Settings, w: World, e: Event)
    requires Effected(cfg, w) && !e.Submit? && !e.PositionClosed? && e.k < |w.workers|
    requires !(e.Advance? && w.workers[e.k].Running?)
    ensures var m := Choose(cfg, w, e);
      && !m.effect.AskCheck? && !m.effect.SendOrder?
      && (m.phase.Running? ==> JobEffects(cfg, PerformOn(w.t, m.effect), w.checks, m.phase.step, m.phase.job))
  {
    var was := w.workers[e.k];
    if was.Running? {
      assert JobEffects(cfg, w.t, w.checks, was.step, was.job);
    }
  }

  lemma EventKeepsEffected(cfg: Settings, w: World, e: Event)
    requires Queue(w) && Workers(w) && Attempts(w) && Effected(cfg, w)
    ensures Effected(cfg, Apply(cfg, w, e))
  {
    hide Choose, Queue, Attempts;
    if !e.Submit? && !e.PositionClosed? && e.k < |w.workers| {
      ChooseLegal(cfg, w, e);
      MoverEffects(cfg, w, e);
      MoveKeepsEffected(cfg, w, e.k, Choose(cfg, w, e));
    }
  }

  lemma {:induction false} RunIsEffected(cfg: Settings, n: nat, open: nat, events: seq<Event>)
    ensures Effected(cfg, Run(cfg, Initial(n, open), events))
  {
    if events != [] {
      var last := |events| - 1;
      RunIsEffected(cfg, n, open, events[..last]);
      RunIsSafe(cfg, n, open, events[..last]);
      EventKeepsEffected(cfg, Run(cfg, Initial(n, open), events[..last]), events[last]);
    }
  }

  lemma ReachableIsEffected(cfg: Settings, n: nat, w: World)
    requires Reachable(cfg, n, w)
    ensures Effected(cfg, w)
  {
    hide Run, Initial, Effected;
    var open: nat, events: seq<Event> :| w == Run(cfg, Initial(n, open), events);
    RunIsEffected(cfg, n, open, events);
  }

  /** The baseline of the account's name and of the broker's day is stored. */
  predicate HasBaseline(t: Tables, o: Observed) {
    Located(o) && DailyKey(o) in t.baselines
  }

  lemma KeptKeyIsDaily(o: Observed)
    requires Located(o) && o.key == AccountKey(o)
    ensures KeptKey(o) == DailyKey(o)
  {
    hide Known, NameOf;
    KeyOfKnown(o.account.value);
  }

  lemma AnchoredHasBaseline(cfg: Settings, t: Tables, checks: seq<Inquiry>, s: Step, j: Job)
    requires JobEffects(cfg, t, checks, s, j) && JobCertified(cfg, s, j) && OutcomeOk(s, j.outcome) && Anchored(s, j.outcome)
    ensures HasBaseline(t, j.seen)
  {
    hide Failing, Known, NameOf, DailyKey, KeptKey, OrderRequest, AccountKey, GateResult, VolumeOf;
    PassedLocates(cfg, j.payload, j.seen, 14);
    KeptKeyIsDaily(j.seen);
  }

  /** Whoever has come past the baseline steps, stopped or sent, has left a baseline under the
      name of its account and the day of the broker's clock. */
  lemma BaselinesAreLeft(cfg: Settings, n: nat, w: World)
    requires Reachable(cfg, n, w)
    ensures forall k | 0 <= k < |w.workers| && w.workers[k].Running? && Anchored(w.workers[k].step, w.workers[k].job.outcome) ::
      HasBaseline(w.t, w.workers[k].job.seen)
    ensures forall i | 0 <= i < |w.orders| :: HasBaseline(w.t, w.orders[i].seen)
  {
    hide Reachable, Queue, Attempts, Orders, Coupled, Exposed, Traced, JobCertified, JobEffects, OrderCertified, HasBaseline, Anchored, KeptKey;
    ReachableIsSafe(cfg, n, w);
    ReachableIsCertified(cfg, n, w);
    ReachableIsEffected(cfg, n, w);
    forall k | 0 <= k < |w.workers| && w.workers[k].Running? && Anchored(w.workers[k].step, w.workers[k].job.outcome)
      ensures HasBaseline(w.t, w.workers[k].job.seen)
    {
      var s, j := w.workers[k].step, w.workers[k].job;
      assert PhaseOk(w, w.workers[k]) && JobCertified(cfg, s, j) && JobEffects(cfg, w.t, w.checks, s, j);
      AnchoredHasBaseline(cfg, w.t, w.checks, s, j);
    }
    forall i | 0 <= i < |w.orders|
      ensures HasBaseline(w.t, w.orders[i].seen)
    {
      var o := w.orders[i];
      assert OrderCertified(cfg, o) && OrderEffects(w.t, w.checks, o);
      OrderHasBaseline(cfg, w.t, w.checks, o);
    }
  }

  lemma OrderHasBaseline(cfg: Settings, t: Tables, checks: seq<Inquiry>, o: Order)
    requires OrderEffects(t, checks, o) && OrderCertified(cfg, o)
    ensures HasBaseline(t, o.seen)
  {
    hide OrderCertified, Known, NameOf, DailyKey, KeptKey, AccountKey;
    OrderLocated(cfg, o);
    KeptKeyIsDaily(o.seen);
  }
}
