/** What holds in every run with one worker, as the bridge is deployed, with crashes,
    exceptions and restarts at any point: the daily trade cap and the daily loss baseline. */
module SingleConsumer {
  import opened Types
  import opened Risk
  import opened Pipeline
  import opened Machine
  import opened Safety
  import opened Certified
  import opened Audit
  import opened Guarantees

  /** The count gate is behind the attempt and nothing has been settled since. */
  predicate AfterCount(s: Step, c: Outcome) {
    match s
    case CountPositions => true case ReadBaseline => true case WriteBaseline => true
    case Size => true case Check => true case RecordCheck => true case Send => true case RecordSend => true
    case FinishExec => c.Sent?
    case _ => false
  }

  predicate AfterBaseline(s: Step, c: Outcome) {
    AfterCount(s, c) && !s.CountPositions? && !s.ReadBaseline? && !s.WriteBaseline?
  }

  ghost predicate Held(t: Tables, o: Observed) {
    BaselineKeyOf(o) in t.baselines && t.baselines[BaselineKeyOf(o)] == o.baseline
  }

  /** The attempt's locals still agree with the tables they were read from. */
  ghost predicate LedgerJob(t: Tables, s: Step, j: Job) {
    && (AfterCount(s, j.outcome) ==> j.seen.trades == CountTrades(t.execs, Key(j.seen), DayStart(j.seen)))
    && (s.WriteBaseline? ==> BaselineKeyOf(j.seen) !in t.baselines)
    && (AfterBaseline(s, j.outcome) ==> Held(t, j.seen))
  }

  ghost predicate OrderLedger(cfg: Settings, t: Tables, o: Order) {
    && o.exec < |t.execs|
    && (CountsAsTrade(t.execs[o.exec].status) ==>
          CountTrades(t.execs[..o.exec + 1], Key(o.seen), DayStart(o.seen)) <= cfg.maxTradesPerDay)
    && Held(t, o.seen)
  }

  ghost predicate Ledger(cfg: Settings, w: World) {
    && |w.workers| == 1
    && (w.workers[0].Running? ==>
          var s, j := w.workers[0].step, w.workers[0].job;
          LedgerJob(w.t, s, j) && (!s.Insert? ==> j.exec + 1 == |w.t.execs|))
    && (forall n | 0 <= n < |w.orders| :: OrderLedger(cfg, w.t, w.orders[n]))
    && (forall m, n | 0 <= m < n < |w.orders| :: w.orders[m].exec < w.orders[n].exec)
  }

  // ---- counting ----

  lemma CountLast(execs: seq<Execution>, x: Execution, key: string, since: int)
    requires execs != []
    ensures var last := |execs| - 1;
      CountTrades(execs[last := x], key, since) ==
      CountTrades(execs[..last], key, since) + if Counted(x, key, since) then 1 else 0
  {
    assert execs[|execs| - 1 := x][..|execs| - 1] == execs[..|execs| - 1];
  }

  /** Writing an open row in place counts nothing. */
  lemma OpenRowCountsNothing(execs: seq<Execution>, x: Execution, key: string, since: int)
    requires execs != [] && execs[|execs| - 1].status == Processing && x.status == Processing
    ensures CountTrades(execs[|execs| - 1 := x], key, since) == CountTrades(execs, key, since)
  {
    CountLast(execs, x, key, since);
  }

  // ---- the attempt ----

  lemma ThroughLedger(cfg: Settings, t: Tables, job: Job, from: nat, until: nat, effect: Effect, next: Step)
    requires from <= until <= GATES
    requires LedgerJob(PerformOn(t, effect), next, job)
    ensures var m := Through(cfg, job, from, until, effect, next);
      m.phase.Running? && LedgerJob(PerformOn(t, m.effect), m.phase.step, m.phase.job)
  {
  }

  lemma UpdateLedger(t: Tables, e: nat, fields: Fields, s: Step, j: Job)
    requires e + 1 == |t.execs| && t.execs[e].status == Processing && !fields.FinishFields?
    requires LedgerJob(t, s, j)
    ensures LedgerJob(PerformOn(t, UpdateExec(e, fields)), s, j)
  {
    OpenRowCountsNothing(t.execs, Patch(t.execs[e], fields), Key(j.seen), DayStart(j.seen));
  }

  lemma SizeLedger(cfg: Settings, t: Tables, j: Job, a: Answer)
    requires j.row < |t.signals| && j.exec + 1 == |t.execs| && t.execs[j.exec].status == Processing
    requires LedgerJob(t, Size, j)
    ensures var m := Decide(cfg, t, Size, j, a);
      m.phase.Running? ==> LedgerJob(PerformOn(t, m.effect), m.phase.step, m.phase.job)
  {
    var will := j.(seen := Priced(j.payload, j.seen, a.seen));
    var fields := VolumeField(PlannedVolume(will.seen));
    UpdateLedger(t, j.exec, fields, Check, will);
    ThroughLedger(cfg, t, will, 14, 17, UpdateExec(j.exec, fields), Check);
  }

  lemma CountDayLedger(cfg: Settings, t: Tables, j: Job, a: Answer)
    requires j.row < |t.signals|
    ensures var m := Decide(cfg, t, CountDay, j, a);
      m.phase.Running? ==> LedgerJob(PerformOn(t, m.effect), m.phase.step, m.phase.job)
  {
    var will := j.(seen := j.seen.(trades := CountTrades(t.execs, Key(j.seen), DayStart(j.seen))));
    ThroughLedger(cfg, t, will, 11, 12, NoEffect, CountPositions);
  }

  /** Before the count nothing is held. */
  lemma EarlyLedger(cfg: Settings, t: Tables, s: Step, j: Job, a: Answer)
    requires j.row < |t.signals| && Early(s) && !s.CountDay? && OutcomeOk(s, j.outcome)
    ensures var m := Decide(cfg, t, s, j, a);
      m.phase.Running? ==> LedgerJob(PerformOn(t, m.effect), m.phase.step, m.phase.job)
  {
    hide FirstIn, Failing, CountTrades, Held, PerformOn;
  }

  lemma BaselineLedger(cfg: Settings, t: Tables, s: Step, j: Job, a: Answer)
    requires j.row < |t.signals| && LedgerJob(t, s, j) && (s.ReadBaseline? || s.WriteBaseline? || s.Check? || s.FinishExec?)
    requires s.FinishExec? ==> j.exec + 1 == |t.execs|
    ensures var m := Decide(cfg, t, s, j, a);
      m.phase.Running? ==> LedgerJob(PerformOn(t, m.effect), m.phase.step, m.phase.job)
  {
  }

  lemma DecideLedger(cfg: Settings, t: Tables, s: Step, j: Job, a: Answer)
    requires j.row < |t.signals| && LedgerJob(t, s, j) && OutcomeOk(s, j.outcome)
    requires !s.Insert? && !s.FinishSignal? ==> j.exec + 1 == |t.execs| && t.execs[j.exec].status == Processing
    ensures var m := Decide(cfg, t, s, j, a);
      m.phase.Running? ==> LedgerJob(PerformOn(t, m.effect), m.phase.step, m.phase.job)
  {
    hide Through, VolumeOf, CountTrades, OrderRequest;
    var o := j.seen;
    match s
    case CountDay => CountDayLedger(cfg, t, j, a);
    case CountPositions =>
      ThroughLedger(cfg, t, j.(seen := o.(positions := a.seen.positions)), 12, 14, NoEffect, ReadBaseline);
    case Size => SizeLedger(cfg, t, j, a);
    case RecordCheck => UpdateLedger(t, j.exec, CheckField(o.check), Send, j);
    case Send => SendLedger(cfg, t, j, a);
    case RecordSend =>
      var f := Decide(cfg, t, RecordSend, j, a).effect.fields;
      UpdateLedger(t, j.exec, f, FinishExec, j);
    case FinishSignal =>
    case _ =>
      if Early(s) {
        EarlyLedger(cfg, t, s, j, a);
      } else {
        BaselineLedger(cfg, t, s, j, a);
      }
  }

  lemma SendLedger(cfg: Settings, t: Tables, j: Job, a: Answer)
    requires j.row < |t.signals| && LedgerJob(t, Send, j)
    ensures var m := Decide(cfg, t, Send, j, a);
      m.phase.Running? ==> LedgerJob(PerformOn(t, m.effect), m.phase.step, m.phase.job)
  {
  }

  // ---- the orders ----

  /** Effects that leave an order's row and the rows before it alone. */
  lemma OldOrderLedger(cfg: Settings, t: Tables, f: Effect, o: Order)
    requires OrderLedger(cfg, t, o)
    requires f.UpdateExec? ==> f.exec + 1 == |t.execs| && (o.exec == f.exec ==> t.execs[f.exec].status == Processing && !f.fields.FinishFields?)
    ensures OrderLedger(cfg, PerformOn(t, f), o)
  {
    var q := PerformOn(t, f);
    if f.InsertExec? || (f.UpdateExec? && o.exec < f.exec) {
      assert q.execs[..o.exec + 1] == t.execs[..o.exec + 1];
    }
  }

  /** The final update of the attempt that sent the order: the row it closes is the last one
      and the count it was gated on is still the count. */
  lemma FinishedOrderLedger(cfg: Settings, t: Tables, e: nat, fields: Fields, o: Order)
    requires e + 1 == |t.execs| && t.execs[e].status == Processing && fields.FinishFields? && o.exec == e
    requires Held(t, o.seen) && o.seen.trades < cfg.maxTradesPerDay
    requires o.seen.trades == CountTrades(t.execs, Key(o.seen), DayStart(o.seen))
    ensures OrderLedger(cfg, PerformOn(t, UpdateExec(e, fields)), o)
  {
    var x := Patch(t.execs[e], fields);
    CountLast(t.execs, x, Key(o.seen), DayStart(o.seen));
    assert t.execs[e := x][..e + 1] == t.execs[e := x];
  }

  lemma OrderMoves(cfg: Settings, w: World, m: Move, n: nat)
    requires Safe(cfg, w) && AllCertified(cfg, w) && Ledger(cfg, w) && n < |w.orders| && Legal(w, 0, m)
    ensures OrderLedger(cfg, PerformOn(w.t, m.effect), w.orders[n])
  {
    var f, was, o := m.effect, w.workers[0], w.orders[n];
    assert OrderLedger(cfg, w.t, o);
    if f.UpdateExec? {
      assert OwnsExec(w, was.step, was.job) && AttemptOpen(w, was.step, was.job);
      if f.exec == o.exec && f.fields.FinishFields? {
        ClosingOrder(cfg, w, n);
        FinishedOrderLedger(cfg, w.t, f.exec, f.fields, o);
      } else {
        OldOrderLedger(cfg, w.t, f, o);
      }
    } else {
      OldOrderLedger(cfg, w.t, f, o);
    }
  }

  lemma TradesWereLeft(cfg: Settings, o: Order)
    requires Failing(cfg, o.payload, o.seen) == {}
    ensures o.seen.trades < cfg.maxTradesPerDay
  {
    GatePassed(cfg, o, TradesLeft);
  }

  /** An order whose row is about to be closed is the one its attempt remembers. */
  lemma ClosingOrder(cfg: Settings, w: World, n: nat)
    requires Attempts(w) && Orders(w) && AllCertified(cfg, w) && Ledger(cfg, w) && n < |w.orders|
    requires w.workers[0].Running? && w.workers[0].step.FinishExec? && w.workers[0].job.exec == w.orders[n].exec
    ensures var o := w.orders[n];
      o.seen.trades < cfg.maxTradesPerDay && o.seen.trades == CountTrades(w.t.execs, Key(o.seen), DayStart(o.seen))
  {
    hide Failing, GateResult, OrderCertified, Consistent;
    var was, o := w.workers[0], w.orders[n];
    assert OrderOk(w, o) && OwnsExec(w, was.step, was.job) && Remembers(w, 0);
    assert o.row == was.job.row && was.job.outcome == Sent(o);
    assert JobCertified(cfg, was.step, was.job);
    TradesWereLeft(cfg, o);
  }

  /** The attempt behind a new order. */
  lemma NewOrderIs(cfg: Settings, w: World, e: Event)
    requires Queue(w) && Workers(w) && |w.workers| == 1
    requires !e.Submit? && !e.PositionClosed? && e.k == 0 && Choose(cfg, w, e).effect.SendOrder?
    ensures var was, o := w.workers[0], Choose(cfg, w, e).effect.order;
      was.Running? && was.step.Send? && was.job.outcome.Undecided? && o.exec == was.job.exec && o.row == was.job.row && o.seen == was.job.seen
  {
    ChooseLegal(cfg, w, e);
    assert PhaseOk(w, w.workers[0]);
    SentSeen(cfg, w.t, w.workers[0].job, e.answer);
  }

  lemma NewestOrder(cfg: Settings, w: World, j: Job)
    requires Attempts(w) && Orders(w) && Ledger(cfg, w) && w.workers[0] == Running(Send, j) && j.outcome.Undecided?
    ensures forall n | 0 <= n < |w.orders| :: w.orders[n].exec < j.exec
  {
    assert OwnsExec(w, w.workers[0].step, w.workers[0].job) && Remembers(w, 0);
    forall n | 0 <= n < |w.orders|
      ensures w.orders[n].exec < j.exec
    {
      assert OrderOk(w, w.orders[n]);
    }
  }

  lemma NewOrderLedger(cfg: Settings, w: World, e: Event)
    requires Safe(cfg, w) && Ledger(cfg, w)
    requires !e.Submit? && !e.PositionClosed? && e.k == 0 && Choose(cfg, w, e).effect.SendOrder?
    ensures var o := Choose(cfg, w, e).effect.order;
      OrderLedger(cfg, w.t, o) && forall n | 0 <= n < |w.orders| :: w.orders[n].exec < o.exec
  {
    hide Choose, Decide, CountTrades, Queue, Exposed, Traced;
    NewOrderIs(cfg, w, e);
    NewestOrder(cfg, w, w.workers[0].job);
    assert AttemptOpen(w, w.workers[0].step, w.workers[0].job);
  }

  lemma SentSeen(cfg: Settings, t: Tables, j: Job, a: Answer)
    requires j.row < |t.signals|
    ensures var f := Decide(cfg, t, Send, j, a).effect; f.SendOrder? ==> f.order.seen == j.seen && f.order.exec == j.exec
  {
  }

  lemma MoverLedger(cfg: Settings, w: World, e: Event)
    requires Safe(cfg, w) && Ledger(cfg, w)
    requires !e.Submit? && !e.PositionClosed? && e.k == 0 && Choose(cfg, w, e).phase.Running?
    ensures var m := Choose(cfg, w, e);
      && LedgerJob(PerformOn(w.t, m.effect), m.phase.step, m.phase.job)
      && (!m.phase.step.Insert? ==> m.phase.job.exec + 1 == |PerformOn(w.t, m.effect).execs|)
  {
    var was, m := w.workers[0], Choose(cfg, w, e);
    ChooseLegal(cfg, w, e);
    assert PhaseOk(w, was);
    if was.Running? && e.Advance? {
      assert AttemptOpen(w, was.step, was.job);
      assert m == Decide(cfg, w.t, was.step, was.job, e.answer);
      DecideLedger(cfg, w.t, was.step, was.job, e.answer);
    }
  }

  /** The ledger after a move, from what is known of the mover, the old orders and the new one. */
  lemma LedgerAfter(cfg: Settings, w: World, v: World)
    requires Ledger(cfg, w) && |v.workers| == 1
    requires v.workers[0].Running? ==>
      var s, j := v.workers[0].step, v.workers[0].job;
      LedgerJob(v.t, s, j) && (!s.Insert? ==> j.exec + 1 == |v.t.execs|)
    requires forall n | 0 <= n < |w.orders| :: OrderLedger(cfg, v.t, w.orders[n])
    requires v.orders == w.orders || (|v.orders| == |w.orders| + 1 && v.orders[..|w.orders|] == w.orders
      && OrderLedger(cfg, v.t, v.orders[|w.orders|]) && forall n | 0 <= n < |w.orders| :: w.orders[n].exec < v.orders[|w.orders|].exec)
    ensures Ledger(cfg, v)
  {
    forall n | 0 <= n < |v.orders|
      ensures OrderLedger(cfg, v.t, v.orders[n])
    {
      assert n < |w.orders| ==> v.orders[n] == w.orders[n];
    }
    forall m, n | 0 <= m < n < |v.orders|
      ensures v.orders[m].exec < v.orders[n].exec
    {
      assert v.orders[m] == w.orders[m];
      assert n < |w.orders| ==> v.orders[n] == w.orders[n];
    }
  }

  lemma PerformShape(w: World, m: Move)
    requires |w.workers| == 1
    ensures var v := Perform(w, 0, m);
      && v.t == PerformOn(w.t, m.effect) && v.workers == [m.phase]
      && v.orders == if m.effect.SendOrder? then w.orders + [m.effect.order] else w.orders
  {
  }

  lemma EnvironmentLedger(cfg: Settings, w: World, v: World)
    requires Ledger(cfg, w) && v.workers == w.workers && v.orders == w.orders
    requires v.t.execs == w.t.execs && v.t.baselines == w.t.baselines
    ensures Ledger(cfg, v)
  {
    forall n | 0 <= n < |v.orders|
      ensures OrderLedger(cfg, v.t, v.orders[n])
    {
      assert OrderLedger(cfg, w.t, w.orders[n]);
    }
  }

  lemma MoveKeepsLedger(cfg: Settings, w: World, m: Move)
    requires Safe(cfg, w) && AllCertified(cfg, w) && Ledger(cfg, w) && Legal(w, 0, m)
    requires m.phase.Running? ==>
      && LedgerJob(PerformOn(w.t, m.effect), m.phase.step, m.phase.job)
      && (!m.phase.step.Insert? ==> m.phase.job.exec + 1 == |PerformOn(w.t, m.effect).execs|)
    requires m.effect.SendOrder? ==>
      OrderLedger(cfg, w.t, m.effect.order) && forall n | 0 <= n < |w.orders| :: w.orders[n].exec < m.effect.order.exec
    ensures Ledger(cfg, Perform(w, 0, m))
  {
    forall n | 0 <= n < |w.orders|
      ensures OrderLedger(cfg, PerformOn(w.t, m.effect), w.orders[n])
    {
      OrderMoves(cfg, w, m, n);
    }
    PerformShape(w, m);
    LedgerAfter(cfg, w, Perform(w, 0, m));
  }

  lemma EventKeepsLedger(cfg: Settings, w: World, e: Event)
    requires Safe(cfg, w) && AllCertified(cfg, w) && Ledger(cfg, w)
    ensures Ledger(cfg, Apply(cfg, w, e))
  {
    if !e.Submit? && !e.PositionClosed? && e.k == 0 {
      var m := Choose(cfg, w, e);
      ChooseLegal(cfg, w, e);
      if m.phase.Running? {
        MoverLedger(cfg, w, e);
      }
      if m.effect.SendOrder? {
        NewOrderLedger(cfg, w, e);
      }
      MoveKeepsLedger(cfg, w, m);
    } else {
      EnvironmentLedger(cfg, w, Apply(cfg, w, e));
    }
  }

  lemma {:induction false} RunKeepsLedger(cfg: Settings, open: nat, events: seq<Event>)
    ensures Ledger(cfg, Run(cfg, Initial(1, open), events))
  {
    if events != [] {
      var last := |events| - 1;
      RunKeepsLedger(cfg, open, events[..last]);
      RunIsSafe(cfg, 1, open, events[..last]);
      RunIsCertified(cfg, 1, open, events[..last]);
      EventKeepsLedger(cfg, Run(cfg, Initial(1, open), events[..last]), events[last]);
    }
  }

  lemma ReachableKeepsLedger(cfg: Settings, w: World)
    requires Reachable(cfg, 1, w)
    ensures Ledger(cfg, w)
  {
    hide Run, Initial, Ledger;
    var open: nat, events: seq<Event> :| w == Run(cfg, Initial(1, open), events);
    RunKeepsLedger(cfg, open, events);
  }
}
