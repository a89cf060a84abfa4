/** The audit trail: an execution row holds exactly what the steps reached have recorded, and
    the two tables explain how a signal was settled. */
module Audit {
  import opened Types
  import opened Pipeline
  import opened Machine
  import opened Safety
  import opened Certified

  /** How many gates an attempt has behind it. */
  function Reached(s: Step, c: Outcome): nat {
    match c
    case Undecided => GatesBefore(s)
    case Stopped(g, _) => Rank(g)
    case Sent(_) => GATES
  }

  function Recorded<T>(yes: bool, v: T): Option<T> {
    if yes then Some(v) else None
  }

  /** The requested columns, and those that the steps before the send have written, by the
      gates passed. */
  predicate RowTells(cfg: Settings, x: Execution, p: Payload, o: Observed, gates: nat) {
    && x.action == p.action && x.stopLoss == p.stopLoss && x.takeProfit == p.takeProfit && x.dryRun == cfg.dryRun
    && x.symbol == Recorded(gates >= 3, MappedSymbol(cfg, p))
    && x.accountKey == Recorded(gates >= 6, Key(o))
    && x.entryPrice == Recorded(gates >= 8, EntryPrice(p, o))
    && x.volume == Recorded(gates >= 17, PlannedVolume(o))
  }

  predicate JobTells(cfg: Settings, t: Tables, s: Step, j: Job) {
    var gates := Reached(s, j.outcome);
    && j.row < |t.signals|
    && t.signals[j.row].normalized == Recorded(gates >= 3 && !s.Normalize?, MappedSymbol(cfg, j.payload))
    && (!s.Insert? ==>
          && j.exec < |t.execs|
          && RowTells(cfg, t.execs[j.exec], j.payload, j.seen, gates)
          && t.execs[j.exec].checkCode == (if gates >= 17 && !s.Check? && !s.RecordCheck? then j.seen.check else None)
          && ResultTells(t.execs[j.exec], s, j.outcome))
  }

  /** The columns of the send and of the final update. */
  predicate ResultTells(x: Execution, s: Step, c: Outcome) {
    && x.sendCode == (if c.Sent? && !s.RecordSend? then ReturnedCode(c.order.result) else None)
    && x.receipt == (if s.FinishSignal? then OutcomeReceipt(c) else NO_RECEIPT)
    && (x.finishedAt.Some? <==> s.FinishSignal?)
  }

  predicate OrderTold(cfg: Settings, t: Tables, o: Order) {
    && o.exec < |t.execs| && RowTells(cfg, t.execs[o.exec], o.payload, o.seen, GATES)
    && (Unfinished(t.execs[o.exec]) || FilledIn(t.execs[o.exec], o.result))
  }

  predicate Unfinished(x: Execution) {
    x.status == Processing && x.finishedAt.None? && x.receipt == NO_RECEIPT
  }

  predicate FilledIn(x: Execution, result: Option<SendResult>) {
    && x.finishedAt.Some?
    && x.status == SendStatus(result) && x.receipt == SendReceipt(result) && x.sendCode == ReturnedCode(result)
  }

  ghost predicate Trail(cfg: Settings, w: World) {
    && (forall k | 0 <= k < |w.workers| && w.workers[k].Running? :: JobTells(cfg, w.t, w.workers[k].step, w.workers[k].job))
    && (forall n | 0 <= n < |w.orders| :: OrderTold(cfg, w.t, w.orders[n]))
    && (forall e | 0 <= e < |w.t.execs| :: TradeHasOrder(w, e, w.t.execs[e].status))
  }

  /** A row counts as a trade only when an order was sent under it, and recovery never
      reaches the executions table. */
  ghost predicate TradeHasOrder(w: World, e: nat, status: Status) {
    && status != RecoveredExecuted
    && (CountsAsTrade(status) ==> exists n :: 0 <= n < |w.orders| && w.orders[n].exec == e)
  }

  /** The mover's rows tell what its next locals hold, and a sent order's row stays closed to
      everything but its result. */
  ghost predicate MoveTells(cfg: Settings, t: Tables, m: Move) {
    m.phase.Running? ==> JobTells(cfg, PerformOn(t, m.effect), m.phase.step, m.phase.job)
  }

  predicate Slice(from: nat, until: nat) {
    from < until <= GATES
    && (from < 3 ==> until <= 3) && (from < 6 ==> until <= 6) && (from < 8 ==> until <= 8) && (from < 17 ==> until <= 17)
  }

  /** Within a slice of gates no column is written. */
  lemma SliceTells(cfg: Settings, x: Execution, p: Payload, o: Observed, from: nat, until: nat, gates: nat)
    requires Slice(from, until) && from <= gates < until && RowTells(cfg, x, p, o, from)
    ensures RowTells(cfg, x, p, o, gates)
  {
  }

  lemma ThroughTells(cfg: Settings, t: Tables, job: Job, from: nat, until: nat, effect: Effect, next: Step)
    requires Slice(from, until) && job.outcome.Undecided?
    requires job.row < |t.signals| && job.exec < |t.execs|
    requires RowTells(cfg, t.execs[job.exec], job.payload, job.seen, from)
    requires t.execs[job.exec].checkCode == if from >= 17 then job.seen.check else None
    requires ResultTells(t.execs[job.exec], FinishExec, Undecided)
    requires t.signals[job.row].normalized == Recorded(from >= 3, MappedSymbol(cfg, job.payload))
    requires JobTells(cfg, PerformOn(t, effect), next, job)
    ensures MoveTells(cfg, t, Through(cfg, job, from, until, effect, next))
  {
    var r := FirstIn(Failing(cfg, job.payload, job.seen), from, until);
    if r.Some? {
      SliceTells(cfg, t.execs[job.exec], job.payload, job.seen, from, until, Rank(r.value));
    }
  }

  lemma AdmitTells(cfg: Settings, t: Tables, s: Step, j: Job, a: Answer)
    requires JobTells(cfg, t, s, j) && OutcomeOk(s, j.outcome) && s.Admit?
    ensures MoveTells(cfg, t, Decide(cfg, t, s, j, a))
  {
    var will := j.(seen := j.seen.(now := a.seen.now));
    ThroughTells(cfg, t, will, 0, 3, UpdateExec(j.exec, SymbolField(MappedSymbol(cfg, j.payload))), Normalize);
  }

  lemma IdentifyTells(cfg: Settings, t: Tables, s: Step, j: Job, a: Answer)
    requires JobTells(cfg, t, s, j) && OutcomeOk(s, j.outcome) && s.Identify?
    ensures MoveTells(cfg, t, Decide(cfg, t, s, j, a))
  {
    var will := j.(seen := Identified(j.seen, a.seen));
    ThroughTells(cfg, t, will, 3, 6, UpdateExec(j.exec, AccountField(Key(will.seen))), Quote);
  }

  lemma QuoteTells(cfg: Settings, t: Tables, s: Step, j: Job, a: Answer)
    requires JobTells(cfg, t, s, j) && OutcomeOk(s, j.outcome) && s.Quote?
    ensures MoveTells(cfg, t, Decide(cfg, t, s, j, a))
  {
    var will := j.(seen := j.seen.(info := a.seen.info, tick := a.seen.tick));
    ThroughTells(cfg, t, will, 6, 8, UpdateExec(j.exec, EntryField(EntryPrice(j.payload, will.seen))), Guard);
  }

  lemma GuardTells(cfg: Settings, t: Tables, s: Step, j: Job, a: Answer)
    requires JobTells(cfg, t, s, j) && OutcomeOk(s, j.outcome) && s.Guard?
    ensures MoveTells(cfg, t, Decide(cfg, t, s, j, a))
  {
    ThroughTells(cfg, t, j.(seen := j.seen.(brokerNow := a.seen.brokerNow)), 8, 11, NoEffect, CountDay);
  }

  lemma DayCountTells(cfg: Settings, t: Tables, s: Step, j: Job, a: Answer)
    requires JobTells(cfg, t, s, j) && OutcomeOk(s, j.outcome) && s.CountDay?
    ensures MoveTells(cfg, t, Decide(cfg, t, s, j, a))
  {
    var will := j.(seen := j.seen.(trades := CountTrades(t.execs, Key(j.seen), DayStart(j.seen))));
    ThroughTells(cfg, t, will, 11, 12, NoEffect, CountPositions);
  }

  lemma PositionsTell(cfg: Settings, t: Tables, s: Step, j: Job, a: Answer)
    requires JobTells(cfg, t, s, j) && OutcomeOk(s, j.outcome) && s.CountPositions?
    ensures MoveTells(cfg, t, Decide(cfg, t, s, j, a))
  {
    ThroughTells(cfg, t, j.(seen := j.seen.(positions := a.seen.positions)), 12, 14, NoEffect, ReadBaseline);
  }

  lemma SizeTells(cfg: Settings, t: Tables, s: Step, j: Job, a: Answer)
    requires JobTells(cfg, t, s, j) && OutcomeOk(s, j.outcome) && s.Size?
    ensures MoveTells(cfg, t, Decide(cfg, t, s, j, a))
  {
    var will := j.(seen := Priced(j.payload, j.seen, a.seen));
    ThroughTells(cfg, t, will, 14, 17, UpdateExec(j.exec, VolumeField(PlannedVolume(will.seen))), Check);
  }

  lemma StoreStepsTell(cfg: Settings, t: Tables, s: Step, j: Job, a: Answer)
    requires JobTells(cfg, t, s, j) && OutcomeOk(s, j.outcome) && (s.Insert? || s.Normalize?)
    ensures MoveTells(cfg, t, Decide(cfg, t, s, j, a))
  {
  }

  lemma CheckStepsTell(cfg: Settings, t: Tables, s: Step, j: Job, a: Answer)
    requires JobTells(cfg, t, s, j) && OutcomeOk(s, j.outcome) && (s.Check? || s.RecordCheck?)
    ensures MoveTells(cfg, t, Decide(cfg, t, s, j, a))
  {
    hide Through, VolumeOf, MappedSymbol, CountTrades, OrderRequest;
  }

  lemma BaselineStepsTell(cfg: Settings, t: Tables, s: Step, j: Job, a: Answer)
    requires JobTells(cfg, t, s, j) && OutcomeOk(s, j.outcome) && (s.ReadBaseline? || s.WriteBaseline?)
    ensures MoveTells(cfg, t, Decide(cfg, t, s, j, a))
  {
  }

  lemma RecordTells(cfg: Settings, t: Tables, s: Step, j: Job, a: Answer)
    requires JobTells(cfg, t, s, j) && OutcomeOk(s, j.outcome) && s.RecordSend? && j.outcome.Sent?
    ensures MoveTells(cfg, t, Decide(cfg, t, s, j, a))
  {
  }

  lemma FinishTells(cfg: Settings, t: Tables, s: Step, j: Job, a: Answer)
    requires JobTells(cfg, t, s, j) && OutcomeOk(s, j.outcome) && s.FinishExec?
    ensures MoveTells(cfg, t, Decide(cfg, t, s, j, a))
  {
    hide Through, VolumeOf, MappedSymbol, PlannedVolume, EntryPrice, Key, CountTrades;
  }

  lemma DecideTells(cfg: Settings, t: Tables, s: Step, j: Job, a: Answer)
    requires JobTells(cfg, t, s, j) && OutcomeOk(s, j.outcome) && (s.RecordSend? ==> j.outcome.Sent?)
    requires !s.FinishSignal?
    ensures MoveTells(cfg, t, Decide(cfg, t, s, j, a))
  {
    match s
    case Admit => AdmitTells(cfg, t, s, j, a);
    case Identify => IdentifyTells(cfg, t, s, j, a);
    case Quote => QuoteTells(cfg, t, s, j, a);
    case Guard => GuardTells(cfg, t, s, j, a);
    case CountDay => DayCountTells(cfg, t, s, j, a);
    case CountPositions => PositionsTell(cfg, t, s, j, a);
    case Size => SizeTells(cfg, t, s, j, a);
    case Send => SendTells(cfg, t, j, a);
    case RecordSend => RecordTells(cfg, t, s, j, a);
    case FinishExec => FinishTells(cfg, t, s, j, a);
    case ReadBaseline => BaselineStepsTell(cfg, t, s, j, a);
    case WriteBaseline => BaselineStepsTell(cfg, t, s, j, a);
    case Check => CheckStepsTell(cfg, t, s, j, a);
    case RecordCheck => CheckStepsTell(cfg, t, s, j, a);
    case _ => StoreStepsTell(cfg, t, s, j, a);
  }

  lemma SendTells(cfg: Settings, t: Tables, j: Job, a: Answer)
    requires JobTells(cfg, t, Send, j) && j.outcome.Undecided?
    ensures MoveTells(cfg, t, Decide(cfg, t, Send, j, a))
  {
    var r := FirstIn(Failing(cfg, j.payload, j.seen), 17, 19);
    if r.Some? {
      SliceTells(cfg, t.execs[j.exec], j.payload, j.seen, 17, 19, Rank(r.value));
    }
  }

  predicate FrozenFor(t: Tables, f: Effect, o: Order) {
    f.UpdateExec? && f.exec == o.exec && o.exec < |t.execs| ==>
      || (f.fields.SendField? && t.execs[o.exec].status == Processing)
      || (f.fields.FinishFields? && FilledIn(Patch(t.execs[o.exec], f.fields), o.result))
  }

  /** After the send an attempt writes only the result into its execution row. */
  lemma SentRowsAreFrozen(cfg: Settings, t: Tables, s: Step, j: Job, a: Answer)
    requires JobTells(cfg, t, s, j) && j.outcome.Sent? && OutcomeOk(s, j.outcome) && j.exec == j.outcome.order.exec
    requires s.RecordSend? ==> t.execs[j.exec].status == Processing
    ensures var f := Decide(cfg, t, s, j, a).effect;
      && (f.UpdateExec? ==> f.exec == j.exec && FrozenFor(t, f, j.outcome.order))
      && !f.StoreSymbol? && !f.SendOrder? && !f.InsertExec?
  {
  }

  /** An effect on other rows leaves an attempt's trail alone. */
  lemma EffectElsewhere(cfg: Settings, t: Tables, f: Effect, s: Step, j: Job)
    requires JobTells(cfg, t, s, j)
    requires f.UpdateExec? && !s.Insert? ==> f.exec != j.exec
    requires f.StoreSymbol? ==> f.row != j.row
    ensures JobTells(cfg, PerformOn(t, f), s, j)
  {
  }

  lemma OthersTell(cfg: Settings, w: World, k: nat, m: Move, l: nat)
    requires Workers(w) && Attempts(w) && k < |w.workers| && Legal(w, k, m)
    requires l < |w.workers| && l != k && w.workers[l].Running?
    requires JobTells(cfg, w.t, w.workers[l].step, w.workers[l].job)
    ensures JobTells(cfg, PerformOn(w.t, m.effect), w.workers[l].step, w.workers[l].job)
  {
    var was, other := w.workers[k], w.workers[l];
    assert OwnsExec(w, other.step, other.job);
    if was.Running? {
      assert OwnsExec(w, was.step, was.job) && was.job.row != other.job.row;
    }
    EffectElsewhere(cfg, w.t, m.effect, other.step, other.job);
  }

  lemma OrderStaysTold(cfg: Settings, t: Tables, f: Effect, o: Order)
    requires OrderTold(cfg, t, o) && FrozenFor(t, f, o)
    ensures OrderTold(cfg, PerformOn(t, f), o)
  {
  }

  /** Only the attempt that sent an order can still write its row. */
  lemma OrderRowFrozen(cfg: Settings, w: World, e: Event, n: nat)
    requires Safe(cfg, w) && Trail(cfg, w) && !e.Submit? && !e.PositionClosed? && e.k < |w.workers| && n < |w.orders|
    ensures FrozenFor(w.t, Choose(cfg, w, e).effect, w.orders[n])
  {
    var f := Choose(cfg, w, e).effect;
    var was := w.workers[e.k];
    ChooseLegal(cfg, w, e);
    if f.UpdateExec? && f.exec == w.orders[n].exec {
      assert PhaseOk(w, was) && OwnsExec(w, was.step, was.job) && Remembers(w, e.k);
      assert OrderOk(w, w.orders[n]);
      assert w.orders[n].row == was.job.row;
      assert JobTells(cfg, w.t, was.step, was.job) && AttemptOpen(w, was.step, was.job);
      SentRowsAreFrozen(cfg, w.t, was.step, was.job, e.answer);
    }
  }

  lemma ClaimerTells(cfg: Settings, w: World, e: Event)
    requires Queue(w) && Workers(w) && Trail(cfg, w)
    requires !e.Submit? && !e.PositionClosed? && !e.Advance? && e.k < |w.workers| && Choose(cfg, w, e).phase.Running?
    ensures var m := Choose(cfg, w, e); JobTells(cfg, PerformOn(w.t, m.effect), m.phase.step, m.phase.job)
  {
    var was := w.workers[e.k];
    assert PhaseOk(w, was);
    if was.Running? {
      assert JobTells(cfg, w.t, was.step, was.job);
    } else {
      assert RowOk(w.t.signals[was.row], was.row < |w.claims|);
    }
  }

  lemma MoverTells(cfg: Settings, w: World, e: Event)
    requires Queue(w) && Workers(w) && Trail(cfg, w)
    requires !e.Submit? && !e.PositionClosed? && e.k < |w.workers| && Choose(cfg, w, e).phase.Running?
    ensures var m := Choose(cfg, w, e); JobTells(cfg, PerformOn(w.t, m.effect), m.phase.step, m.phase.job)
  {
    var was := w.workers[e.k];
    if e.Advance? {
      assert PhaseOk(w, was) && was.Running?;
      var s, j := was.step, was.job;
      assert JobTells(cfg, w.t, s, j) && Choose(cfg, w, e) == Decide(cfg, w.t, s, j, e.answer);
      if !s.FinishSignal? {
        DecideTells(cfg, w.t, s, j, e.answer);
      }
    } else {
      ClaimerTells(cfg, w, e);
    }
  }

  lemma SentOrderTold(cfg: Settings, t: Tables, j: Job, a: Answer)
    requires JobTells(cfg, t, Send, j) && t.execs[j.exec].status == Processing && j.outcome.Undecided?
    ensures var f := Decide(cfg, t, Send, j, a).effect; f.SendOrder? ==> OrderTold(cfg, t, f.order)
  {
  }

  lemma NewOrderTold(cfg: Settings, w: World, e: Event)
    requires Queue(w) && Workers(w) && Coupled(w) && Trail(cfg, w)
    requires !e.Submit? && !e.PositionClosed? && e.k < |w.workers| && Choose(cfg, w, e).effect.SendOrder?
    ensures OrderTold(cfg, w.t, Choose(cfg, w, e).effect.order)
  {
    var was := w.workers[e.k];
    ChooseLegal(cfg, w, e);
    assert PhaseOk(w, was) && JobTells(cfg, w.t, was.step, was.job) && AttemptOpen(w, was.step, was.job);
    SentOrderTold(cfg, w.t, was.job, e.answer);
  }

  lemma TradeOrderKept(w: World, k: nat, m: Move, e: nat, status: Status)
    requires k < |w.workers| && TradeHasOrder(w, e, status)
    ensures TradeHasOrder(Perform(w, k, m), e, status)
  {
    if CountsAsTrade(status) {
      var n :| 0 <= n < |w.orders| && w.orders[n].exec == e;
      assert Perform(w, k, m).orders[n] == w.orders[n];
    }
  }

  lemma FinishedTrade(w: World, k: nat, m: Move)
    requires Workers(w) && Orders(w) && k < |w.workers| && Legal(w, k, m)
    requires m.effect.UpdateExec? && m.effect.fields.FinishFields?
    ensures TradeHasOrder(Perform(w, k, m), m.effect.exec, m.effect.fields.status)
  {
    var was := w.workers[k];
    assert PhaseOk(w, was) && Remembers(w, k);
    if was.job.outcome.Sent? {
      var n :| 0 <= n < |w.orders| && w.orders[n] == was.job.outcome.order;
      assert Perform(w, k, m).orders[n].exec == was.job.exec;
    }
  }

  lemma ExecStatusAfter(t: Tables, f: Effect, e: nat)
    requires e < |PerformOn(t, f).execs|
    ensures PerformOn(t, f).execs[e].status ==
      if f.UpdateExec? && f.exec == e && f.fields.FinishFields? then f.fields.status
      else if e < |t.execs| then t.execs[e].status
      else f.record.status
  {
  }

  lemma ExecTradeKept(cfg: Settings, w: World, k: nat, m: Move, e: nat)
    requires Workers(w) && Orders(w) && Trail(cfg, w) && k < |w.workers| && Legal(w, k, m)
    requires e < |PerformOn(w.t, m.effect).execs|
    ensures TradeHasOrder(Perform(w, k, m), e, PerformOn(w.t, m.effect).execs[e].status)
  {
    var f := m.effect;
    ExecStatusAfter(w.t, f, e);
    if f.UpdateExec? && f.exec == e && f.fields.FinishFields? {
      FinishedTrade(w, k, m);
    } else if e < |w.t.execs| {
      TradeOrderKept(w, k, m, e, w.t.execs[e].status);
    }
  }

  lemma EventKeepsTrail(cfg: Settings, w: World, e: Event)
    requires Safe(cfg, w) && Trail(cfg, w)
    requires !e.Submit? && !e.PositionClosed? && e.k < |w.workers|
    ensures Trail(cfg, Apply(cfg, w, e))
  {
    var m, v := Choose(cfg, w, e), Apply(cfg, w, e);
    ChooseLegal(cfg, w, e);
    forall l | 0 <= l < |v.workers| && v.workers[l].Running?
      ensures JobTells(cfg, v.t, v.workers[l].step, v.workers[l].job)
    {
      if l == e.k {
        MoverTells(cfg, w, e);
      } else {
        assert JobTells(cfg, w.t, w.workers[l].step, w.workers[l].job);
        OthersTell(cfg, w, e.k, m, l);
      }
    }
    forall n | 0 <= n < |v.orders|
      ensures OrderTold(cfg, v.t, v.orders[n])
    {
      if n < |w.orders| {
        assert OrderTold(cfg, w.t, w.orders[n]);
        OrderRowFrozen(cfg, w, e, n);
        OrderStaysTold(cfg, w.t, m.effect, w.orders[n]);
      } else {
        NewOrderTold(cfg, w, e);
      }
    }
    forall i | 0 <= i < |v.t.execs|
      ensures TradeHasOrder(v, i, v.t.execs[i].status)
    {
      ExecTradeKept(cfg, w, e.k, m, i);
    }
  }

  lemma {:induction false} RunKeepsTrail(cfg: Settings, n: nat, open: nat, events: seq<Event>)
    ensures Trail(cfg, Run(cfg, Initial(n, open), events))
  {
    if events != [] {
      var last := |events| - 1;
      var w, e := Run(cfg, Initial(n, open), events[..last]), events[last];
      RunKeepsTrail(cfg, n, open, events[..last]);
      RunIsSafe(cfg, n, open, events[..last]);
      if e.Submit? || e.PositionClosed? {
        var v := Apply(cfg, w, e);
        assert forall i | 0 <= i < |w.t.signals| :: v.t.signals[i] == w.t.signals[i];
        forall k | 0 <= k < |v.workers| && v.workers[k].Running?
          ensures JobTells(cfg, v.t, v.workers[k].step, v.workers[k].job)
        {
          assert JobTells(cfg, w.t, w.workers[k].step, w.workers[k].job);
        }
        forall i | 0 <= i < |v.orders|
          ensures OrderTold(cfg, v.t, v.orders[i])
        {
          assert OrderTold(cfg, w.t, w.orders[i]);
        }
        forall i | 0 <= i < |v.t.execs|
          ensures TradeHasOrder(v, i, v.t.execs[i].status)
        {
          assert TradeHasOrder(w, i, w.t.execs[i].status);
        }
      } else if e.k < |w.workers| {
        EventKeepsTrail(cfg, w, e);
      }
    }
  }

  lemma ReachableKeepsTrail(cfg: Settings, n: nat, w: World)
    requires Reachable(cfg, n, w)
    ensures Trail(cfg, w)
  {
    hide Run, Initial, Trail;
    var open: nat, events: seq<Event> :| w == Run(cfg, Initial(n, open), events);
    RunKeepsTrail(cfg, n, open, events);
  }
}
