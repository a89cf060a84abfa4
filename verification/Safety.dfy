/** Invariants of every run: any number of workers, any interleaving of submissions, crashes,
    exceptions and restarts, and any answers. */
module Safety {
  import opened Types
  import opened Sizing
  import opened Pipeline
  import opened Machine

  // ---- vocabulary ----

  predicate BeforeSend(s: Step) {
    !s.RecordSend? && !s.FinishExec? && !s.FinishSignal?
  }

  /** The statuses that a gate can give. */
  predicate Rejection(s: Status) {
    Settled(s) && !CountsAsTrade(s) && s != ReviewRequired && s != FailedOrderSend
  }

  predicate OutcomeOk(s: Step, c: Outcome) {
    match c
    case Undecided => BeforeSend(s)
    case Stopped(_, status) => (s.FinishExec? || s.FinishSignal?) && Rejection(status)
    case Sent(_) => !BeforeSend(s)
  }

  /** Statuses that recovery may leave a row in, or from which it starts. */
  predicate Unresolved(s: Status) {
    s == Processing || s == RecoveredExecuted || s == ReviewRequired
  }

  /** The attempt goes on: same signal, same execution row. */
  predicate Continues(was: Phase, will: Phase) {
    && was.Running? && will.Running? && !was.step.Insert? && !will.step.Insert?
    && will.job.row == was.job.row && will.job.payload == was.job.payload && will.job.exec == was.job.exec
    && OutcomeOk(will.step, will.job.outcome)
    && !was.step.FinishSignal?
    && (was.job.outcome.Sent? <==> will.job.outcome.Sent?)
    && (was.job.outcome.Sent? ==> will.job.outcome == was.job.outcome)
  }

  /** What a move of a worker may do to the shared state. */
  ghost predicate Legal(w: World, k: nat, m: Move)
    requires k < |w.workers|
  {
    var was, will := w.workers[k], m.phase;
    match m.effect
    case NoEffect =>
      || will.Down? || will.Idle? || will == was
      || (will.Recovering? && will.queue == RowsWith(w.t.signals, Processing))
      || (will.Selected? && LeastPending(w.t.signals, 0) == Some(will.row))
      || (Continues(was, will) && !will.step.FinishSignal?)
    case InsertExec(x) =>
      && was.Running? && was.step.Insert?
      && will == Running(Admit, was.job.(exec := |w.t.execs|))
      && x.signal == was.job.row && x.status == Processing && x.accountKey.None?
    case UpdateExec(e, fields) =>
      && Continues(was, will) && e == was.job.exec
      && (fields.FinishFields? ==>
            was.step.FinishExec? && will == Running(FinishSignal, was.job) && fields.status == OutcomeStatus(was.job.outcome))
      && (!fields.FinishFields? ==> !will.step.FinishSignal?)
    case StoreSymbol(i, _) => Continues(was, will) && i == was.job.row && !will.step.FinishSignal?
    case StoreBaseline(_, _) => Continues(was, will) && !will.step.FinishSignal?
    case AskCheck(q) =>
      Continues(was, will) && was.step.Check? && will.step.RecordCheck? && q.row == was.job.row && q.exec == was.job.exec
    case SendOrder(o) =>
      && was.Running? && was.step.Send? && o.row == was.job.row && o.exec == was.job.exec && o.payload == was.job.payload
      && will == Running(RecordSend, was.job.(outcome := Sent(o)))
    case SetStatus(i, status) =>
      was.Running? && was.step.FinishSignal? && i == was.job.row && status == OutcomeStatus(was.job.outcome) && will.Idle?
    case ClaimRow(i) =>
      && was == Selected(i) && i < |w.t.signals| && w.t.signals[i].status == Pending
      && will == Running(Insert, Job(i, w.t.signals[i].payload, 0, NOTHING, Undecided))
    case Reconciled(i, status, _) =>
      && was.Recovering? && was.queue != [] && i == was.queue[0] && will == Recovering(was.queue[1..])
      && (status == RecoveredExecuted || status == ReviewRequired)
  }

  lemma GateStatusIsRejection(cfg: Settings, p: Payload, o: Observed, g: Gate)
    requires GateResult(cfg, p, o, g).Some?
    ensures Rejection(GateResult(cfg, p, o, g).value)
  {
  }

  lemma ThroughContinues(cfg: Settings, was: Phase, job: Job, from: nat, until: nat, effect: Effect, next: Step)
    requires from <= until <= GATES
    requires was.Running? && BeforeSend(was.step) && !was.step.Insert? && was.job.outcome.Undecided?
    requires job.row == was.job.row && job.payload == was.job.payload
    requires job.exec == was.job.exec && job.outcome.Undecided?
    requires BeforeSend(next) && !next.Insert?
    ensures var m := Through(cfg, job, from, until, effect, next);
      Continues(was, m.phase) && !m.phase.step.FinishSignal? && (m.effect == effect || m.effect.NoEffect?)
  {
    var r := FirstIn(Failing(cfg, job.payload, job.seen), from, until);
    if r.Some? {
      GateStatusIsRejection(cfg, job.payload, job.seen, r.value);
    }
  }

  lemma SendStepLegal(cfg: Settings, w: World, k: nat, a: Answer)
    requires k < |w.workers| && w.workers[k].Running? && w.workers[k].step.Send? && w.workers[k].job.outcome.Undecided?
    requires w.workers[k].job.row < |w.t.signals|
    ensures Legal(w, k, Decide(cfg, w.t, Send, w.workers[k].job, a))
  {
    var job := w.workers[k].job;
    var r := FirstIn(Failing(cfg, job.payload, job.seen), 17, 19);
    if r.Some? {
      GateStatusIsRejection(cfg, job.payload, job.seen, r.value);
    }
  }

  predicate Early(s: Step) {
    s.Insert? || s.Admit? || s.Normalize? || s.Identify? || s.Quote? || s.Guard? || s.CountDay?
  }

  lemma EarlyDecideLegal(cfg: Settings, w: World, k: nat, a: Answer)
    requires k < |w.workers| && w.workers[k].Running? && Early(w.workers[k].step)
    requires w.workers[k].job.row < |w.t.signals| && w.workers[k].job.outcome.Undecided?
    ensures Legal(w, k, Decide(cfg, w.t, w.workers[k].step, w.workers[k].job, a))
  {
    hide Through, Failing, FirstIn, CalculateVolume;
    var was := w.workers[k];
    var job, o, p := was.job, was.job.seen, was.job.payload;
    match was.step
    case Admit =>
      ThroughContinues(cfg, was, job.(seen := o.(now := a.seen.now)), 0, 3, UpdateExec(job.exec, SymbolField(MappedSymbol(cfg, p))), Normalize);
    case Identify =>
      var j := job.(seen := Identified(o, a.seen));
      ThroughContinues(cfg, was, j, 3, 6, UpdateExec(j.exec, AccountField(Key(j.seen))), Quote);
    case Quote =>
      var j := job.(seen := o.(info := a.seen.info, tick := a.seen.tick));
      ThroughContinues(cfg, was, j, 6, 8, UpdateExec(j.exec, EntryField(EntryPrice(p, j.seen))), Guard);
    case Guard =>
      ThroughContinues(cfg, was, job.(seen := o.(brokerNow := a.seen.brokerNow)), 8, 11, NoEffect, CountDay);
    case CountDay =>
      var j := job.(seen := o.(trades := CountTrades(w.t.execs, Key(o), DayStart(o))));
      ThroughContinues(cfg, was, j, 11, 12, NoEffect, CountPositions);
    case _ =>
  }

  lemma DecideLegal(cfg: Settings, w: World, k: nat, a: Answer)
    requires k < |w.workers| && w.workers[k].Running?
    requires w.workers[k].job.row < |w.t.signals| && OutcomeOk(w.workers[k].step, w.workers[k].job.outcome)
    requires w.workers[k].step.RecordSend? ==> w.workers[k].job.outcome.Sent?
    ensures Legal(w, k, Decide(cfg, w.t, w.workers[k].step, w.workers[k].job, a))
  {
    hide Through, Failing, FirstIn, CalculateVolume;
    var was := w.workers[k];
    var job, o, p := was.job, was.job.seen, was.job.payload;
    match was.step
    case CountPositions =>
      ThroughContinues(cfg, was, job.(seen := o.(positions := a.seen.positions)), 12, 14, NoEffect, ReadBaseline);
    case Size =>
      var j := job.(seen := Priced(p, o, a.seen));
      ThroughContinues(cfg, was, j, 14, 17, UpdateExec(j.exec, VolumeField(PlannedVolume(j.seen))), Check);
    case Send =>
      SendStepLegal(cfg, w, k, a);
    case _ =>
      if Early(was.step) {
        EarlyDecideLegal(cfg, w, k, a);
      }
  }

  // ---- the invariants ----

  ghost predicate UniqueIds(signals: seq<SignalRow>) {
    forall i, j | 0 <= i < j < |signals| :: signals[i].payload.id != signals[j].payload.id
  }

  predicate RowOk(r: SignalRow, claimed: bool) {
    if claimed then r.status != Pending && r.attempts == 1
    else r.status == Pending && r.attempts == 0 && r.normalized.None?
  }

  /** The claimed rows are a prefix of id order, claimed in that order, once each. */
  ghost predicate Queue(w: World) {
    && UniqueIds(w.t.signals)
    && |w.claims| <= |w.t.signals|
    && (forall i | 0 <= i < |w.claims| :: w.claims[i] == i)
    && (forall i | 0 <= i < |w.t.signals| :: RowOk(w.t.signals[i], i < |w.claims|))
  }

  ghost predicate PhaseOk(w: World, ph: Phase) {
    match ph
    case Recovering(q) => forall i | i in q :: i < |w.claims|
    case Selected(i) => i <= |w.claims| && i < |w.t.signals|
    case Running(s, j) =>
      && j.row < |w.claims| && j.row < |w.t.signals| && j.payload == w.t.signals[j.row].payload
      && OutcomeOk(s, j.outcome) && (s.RecordSend? ==> j.outcome.Sent?)
    case _ => true
  }

  ghost predicate Workers(w: World) {
    && (forall k | 0 <= k < |w.workers| :: PhaseOk(w, w.workers[k]))
    && (forall k, l | 0 <= k < l < |w.workers| && w.workers[k].Running? && w.workers[l].Running? ::
          w.workers[k].job.row != w.workers[l].job.row)
  }

  /** Every claimed signal has at most one execution row, and a running attempt owns its own. */
  ghost predicate Attempts(w: World) {
    && (forall e | 0 <= e < |w.t.execs| :: w.t.execs[e].signal < |w.claims|)
    && (forall e, f | 0 <= e < f < |w.t.execs| :: w.t.execs[e].signal != w.t.execs[f].signal)
    && (forall k | 0 <= k < |w.workers| && w.workers[k].Running? :: OwnsExec(w, w.workers[k].step, w.workers[k].job))
  }

  ghost predicate OwnsExec(w: World, s: Step, j: Job) {
    if s.Insert? then forall e | 0 <= e < |w.t.execs| :: w.t.execs[e].signal != j.row
    else j.exec < |w.t.execs| && w.t.execs[j.exec].signal == j.row
  }

  /** One order per signal at most; the attempt that sent it remembers it. */
  ghost predicate Orders(w: World) {
    && (forall n | 0 <= n < |w.orders| :: OrderOk(w, w.orders[n]))
    && (forall m, n | 0 <= m < n < |w.orders| :: w.orders[m].row != w.orders[n].row)
    && (forall k | 0 <= k < |w.workers| && w.workers[k].Running? :: Remembers(w, k))
  }

  ghost predicate Remembers(w: World, k: nat)
    requires k < |w.workers| && w.workers[k].Running?
  {
    var j := w.workers[k].job;
    && (forall n | 0 <= n < |w.orders| && w.orders[n].row == j.row :: j.outcome == Sent(w.orders[n]))
    && (j.outcome.Sent? ==> j.outcome.order in w.orders && j.outcome.order.row == j.row && j.outcome.order.exec == j.exec)
  }

  ghost predicate OrderOk(w: World, o: Order) {
    && o.row < |w.claims| && o.row < |w.t.signals| && o.payload == w.t.signals[o.row].payload
    && o.exec < |w.t.execs| && w.t.execs[o.exec].signal == o.row
  }

  /** The two tables agree on every settled signal except after recovery. */
  ghost predicate Coupled(w: World)
    requires |w.claims| <= |w.t.signals|
  {
    && (forall e | 0 <= e < |w.t.execs| :: RowCoupled(w, e))
    && (forall i | 0 <= i < |w.claims| :: Unresolved(w.t.signals[i].status) || HasExec(w, i))
    && (forall k | 0 <= k < |w.workers| && w.workers[k].Running? :: AttemptOpen(w, w.workers[k].step, w.workers[k].job))
  }

  predicate RowCoupled(w: World, e: nat)
    requires e < |w.t.execs|
  {
    var x := w.t.execs[e];
    && x.signal < |w.t.signals|
    && (x.status == w.t.signals[x.signal].status || Unresolved(w.t.signals[x.signal].status))
  }

  ghost predicate HasExec(w: World, i: nat) {
    exists e :: 0 <= e < |w.t.execs| && w.t.execs[e].signal == i
  }

  /** While an attempt runs its signal is not settled by anyone but recovery, and its own
      execution row is open until the final update. */
  predicate AttemptOpen(w: World, s: Step, j: Job) {
    && j.row < |w.t.signals| && Unresolved(w.t.signals[j.row].status)
    && (!s.Insert? ==>
          && j.exec < |w.t.execs| && w.t.execs[j.exec].signal == j.row
          && w.t.execs[j.exec].status == if s.FinishSignal? then OutcomeStatus(j.outcome) else Processing)
  }

  /** The status of a signal whose order went out is the one its result gives, or unresolved. */
  ghost predicate Exposed(w: World)
    requires Orders(w)
  {
    forall n | 0 <= n < |w.orders| ::
      var st := w.t.signals[w.orders[n].row].status;
      st == SendStatus(w.orders[n].result) || Unresolved(st)
  }

  predicate SendOnly(s: Status) {
    s == Executed || s == ExecutedPartial || s == FailedOrderSend
  }

  ghost predicate HasOrder(w: World, row: nat, status: Status) {
    exists n :: 0 <= n < |w.orders| && w.orders[n].row == row && SendStatus(w.orders[n].result) == status
  }

  ghost predicate HasLookup(w: World, row: nat, tag: string) {
    exists n :: 0 <= n < |w.lookups| && w.lookups[n].row == row && tag in w.lookups[n].deals
  }

  /** The statuses that speak of an order have one, and a recovered signal has a history
      answer with its tag. */
  ghost predicate Traced(cfg: Settings, w: World) {
    forall i | 0 <= i < |w.t.signals| :: RowTraced(cfg, w, i, w.t.signals[i])
  }

  ghost predicate RowTraced(cfg: Settings, w: World, i: nat, r: SignalRow) {
    && (SendOnly(r.status) ==> HasOrder(w, i, r.status))
    && (r.status == RecoveredExecuted ==> HasLookup(w, i, cfg.tag(r.payload.id)))
  }

  ghost predicate Safe(cfg: Settings, w: World) {
    Queue(w) && Workers(w) && Attempts(w) && Orders(w) && Coupled(w) && Exposed(w) && Traced(cfg, w)
  }

  // ---- preservation, invariant by invariant ----

  lemma QueueKept(w: World, k: nat, m: Move)
    requires Queue(w) && Workers(w) && k < |w.workers| && Legal(w, k, m)
    ensures Queue(Perform(w, k, m))
  {
    var v := Perform(w, k, m);
    assert PhaseOk(w, w.workers[k]);
    if m.effect.Reconciled? {
      assert m.effect.row in w.workers[k].queue;
    }
    if m.effect.ClaimRow? {
      var i := m.effect.row;
      assert RowOk(w.t.signals[i], i < |w.claims|);
      assert i == |w.claims|;
    }
    forall i | 0 <= i < |v.t.signals|
      ensures RowOk(v.t.signals[i], i < |v.claims|)
    {
      assert RowOk(w.t.signals[i], i < |w.claims|);
    }
    forall i, j | 0 <= i < j < |v.t.signals|
      ensures v.t.signals[i].payload.id != v.t.signals[j].payload.id
    {
      assert v.t.signals[i].payload == w.t.signals[i].payload && v.t.signals[j].payload == w.t.signals[j].payload;
    }
  }

  /** What no move does: payloads stay, rows and claims never shrink. */
  lemma TablesGrow(w: World, k: nat, m: Move)
    requires k < |w.workers|
    ensures var v := Perform(w, k, m);
      && |v.t.signals| == |w.t.signals| && |v.claims| >= |w.claims| && |v.t.execs| >= |w.t.execs|
      && (forall i | 0 <= i < |w.t.signals| :: v.t.signals[i].payload == w.t.signals[i].payload)
      && (forall e | 0 <= e < |w.t.execs| :: v.t.execs[e].signal == w.t.execs[e].signal)
  {
  }

  lemma MoverPhaseOk(w: World, k: nat, m: Move)
    requires Queue(w) && Workers(w) && k < |w.workers| && Legal(w, k, m)
    ensures PhaseOk(Perform(w, k, m), m.phase)
  {
    var was, n := w.workers[k], |w.claims|;
    TablesGrow(w, k, m);
    assert PhaseOk(w, was);
    if m.effect.Reconciled? {
      assert forall i | i in m.phase.queue :: i in was.queue;
    } else if m.effect.NoEffect? && m.phase != was && m.phase.Recovering? {
      forall i | i in m.phase.queue
        ensures i < n
      {
        assert RowOk(w.t.signals[i], i < n);
      }
    } else if m.phase.Selected? {
      assert n < |w.t.signals| ==> RowOk(w.t.signals[n], n < |w.claims|);
    }
  }

  lemma OtherPhaseOk(w: World, v: World, ph: Phase)
    requires PhaseOk(w, ph) && |v.t.signals| >= |w.t.signals| && |v.claims| >= |w.claims|
    requires forall i | 0 <= i < |w.t.signals| :: v.t.signals[i].payload == w.t.signals[i].payload
    ensures PhaseOk(v, ph)
  {
  }

  lemma RowsStayApart(w: World, k: nat, m: Move, l: nat)
    requires Queue(w) && Workers(w) && k < |w.workers| && Legal(w, k, m)
    requires l < |w.workers| && l != k && w.workers[l].Running? && m.phase.Running?
    ensures m.phase.job.row != w.workers[l].job.row
  {
    assert PhaseOk(w, w.workers[l]);
    if m.effect.ClaimRow? {
      assert RowOk(w.t.signals[m.effect.row], m.effect.row < |w.claims|);
    }
  }

  lemma WorkersKept(w: World, k: nat, m: Move)
    requires Queue(w) && Workers(w) && k < |w.workers| && Legal(w, k, m)
    ensures Workers(Perform(w, k, m))
  {
    var v := Perform(w, k, m);
    TablesGrow(w, k, m);
    forall l | 0 <= l < |v.workers|
      ensures PhaseOk(v, v.workers[l])
    {
      if l == k {
        MoverPhaseOk(w, k, m);
      } else {
        OtherPhaseOk(w, v, w.workers[l]);
      }
    }
    forall l | 0 <= l < |v.workers| && l != k && v.workers[l].Running? && m.phase.Running?
      ensures m.phase.job.row != v.workers[l].job.row
    {
      RowsStayApart(w, k, m, l);
    }
  }

  lemma MoverOwnsExec(w: World, k: nat, m: Move)
    requires Queue(w) && Workers(w) && Attempts(w) && k < |w.workers| && Legal(w, k, m) && m.phase.Running?
    ensures OwnsExec(Perform(w, k, m), m.phase.step, m.phase.job)
  {
    var was := w.workers[k];
    TablesGrow(w, k, m);
    assert PhaseOk(w, was);
    if was.Running? {
      assert OwnsExec(w, was.step, was.job);
    } else {
      assert RowOk(w.t.signals[m.effect.row], m.effect.row < |w.claims|);
    }
  }

  lemma OtherOwnsExec(w: World, k: nat, m: Move, l: nat)
    requires Workers(w) && Attempts(w) && k < |w.workers| && Legal(w, k, m)
    requires l < |w.workers| && l != k && w.workers[l].Running?
    ensures OwnsExec(Perform(w, k, m), w.workers[l].step, w.workers[l].job)
  {
    TablesGrow(w, k, m);
    assert OwnsExec(w, w.workers[l].step, w.workers[l].job);
  }

  lemma ExecRowsApart(w: World, k: nat, m: Move)
    requires Queue(w) && Workers(w) && Attempts(w) && k < |w.workers| && Legal(w, k, m)
    ensures var v := Perform(w, k, m);
      && (forall e | 0 <= e < |v.t.execs| :: v.t.execs[e].signal < |v.claims|)
      && (forall e, f | 0 <= e < f < |v.t.execs| :: v.t.execs[e].signal != v.t.execs[f].signal)
  {
    TablesGrow(w, k, m);
    if m.effect.InsertExec? {
      assert PhaseOk(w, w.workers[k]) && OwnsExec(w, w.workers[k].step, w.workers[k].job);
    }
  }

  lemma AttemptsKept(w: World, k: nat, m: Move)
    requires Queue(w) && Workers(w) && Attempts(w) && k < |w.workers| && Legal(w, k, m)
    ensures Attempts(Perform(w, k, m))
  {
    var v := Perform(w, k, m);
    ExecRowsApart(w, k, m);
    forall l | 0 <= l < |v.workers| && v.workers[l].Running?
      ensures OwnsExec(v, v.workers[l].step, v.workers[l].job)
    {
      if l == k {
        MoverOwnsExec(w, k, m);
      } else {
        OtherOwnsExec(w, k, m, l);
      }
    }
  }

  lemma OrderRowsKept(w: World, k: nat, m: Move)
    requires Queue(w) && Workers(w) && Attempts(w) && Orders(w) && k < |w.workers| && Legal(w, k, m)
    ensures forall n | 0 <= n < |Perform(w, k, m).orders| :: OrderOk(Perform(w, k, m), Perform(w, k, m).orders[n])
  {
    var v := Perform(w, k, m);
    assert PhaseOk(w, w.workers[k]);
    assert w.workers[k].Running? ==> OwnsExec(w, w.workers[k].step, w.workers[k].job);
    TablesGrow(w, k, m);
    forall n | 0 <= n < |v.orders|
      ensures OrderOk(v, v.orders[n])
    {
      if n < |w.orders| {
        assert OrderOk(w, w.orders[n]);
      }
    }
  }

  /** A worker's own move keeps its memory; a claimed row has no order yet. */
  lemma MoverRemembers(w: World, k: nat, m: Move)
    requires Queue(w) && Workers(w) && Orders(w) && k < |w.workers| && Legal(w, k, m)
    requires m.phase.Running?
    ensures Remembers(Perform(w, k, m), k)
  {
    var v := Perform(w, k, m);
    assert PhaseOk(w, w.workers[k]);
    if w.workers[k].Running? {
      assert Remembers(w, k);
      if m.effect.SendOrder? {
        assert v.orders[|w.orders|] == m.effect.order;
      }
    } else if m.effect.ClaimRow? {
      assert RowOk(w.t.signals[m.effect.row], m.effect.row < |w.claims|);
      forall n | 0 <= n < |w.orders|
        ensures w.orders[n].row != m.effect.row
      {
        assert OrderOk(w, w.orders[n]);
      }
    }
  }

  lemma OthersRemember(w: World, k: nat, m: Move, l: nat)
    requires Workers(w) && Orders(w) && k < |w.workers| && Legal(w, k, m)
    requires l < |w.workers| && l != k && w.workers[l].Running?
    ensures Remembers(Perform(w, k, m), l)
  {
    assert Remembers(w, l);
    if m.effect.SendOrder? {
      assert w.workers[k].Running? && w.workers[k].job.row != w.workers[l].job.row;
    }
  }

  lemma OrdersKept(w: World, k: nat, m: Move)
    requires Queue(w) && Workers(w) && Attempts(w) && Orders(w) && k < |w.workers| && Legal(w, k, m)
    ensures Orders(Perform(w, k, m))
  {
    var v := Perform(w, k, m);
    OrderRowsKept(w, k, m);
    forall l | 0 <= l < |v.workers| && v.workers[l].Running?
      ensures Remembers(v, l)
    {
      if l == k {
        MoverRemembers(w, k, m);
      } else {
        OthersRemember(w, k, m, l);
      }
    }
    if m.effect.SendOrder? {
      assert PhaseOk(w, w.workers[k]);
      assert Remembers(w, k);
    }
  }

  lemma RowCoupledKept(w: World, k: nat, m: Move, e: nat)
    requires |w.claims| <= |w.t.signals| && Workers(w) && Attempts(w) && Coupled(w) && k < |w.workers| && Legal(w, k, m)
    requires e < |w.t.execs|
    ensures RowCoupled(Perform(w, k, m), e)
  {
    var was := w.workers[k];
    hide OutcomeStatus, OutcomeOk, HasExec, RowsWith, LeastPending;
    assert PhaseOk(w, was) && RowCoupled(w, e);
    if was.Running? {
      assert OwnsExec(w, was.step, was.job) && AttemptOpen(w, was.step, was.job);
      assert e != was.job.exec && !was.step.Insert? ==> w.t.execs[e].signal != was.job.row;
    }
    StatusAfter(w.t, m.effect, w.t.execs[e].signal);
  }

  lemma CoupledRowsKept(w: World, k: nat, m: Move)
    requires Queue(w) && Workers(w) && Attempts(w) && Coupled(w) && k < |w.workers| && Legal(w, k, m)
    ensures var v := Perform(w, k, m);
      forall e | 0 <= e < |v.t.execs| :: RowCoupled(v, e)
  {
    var v := Perform(w, k, m);
    var was := w.workers[k];
    forall e | 0 <= e < |v.t.execs|
      ensures RowCoupled(v, e)
    {
      if e < |w.t.execs| {
        RowCoupledKept(w, k, m, e);
      } else {
        assert PhaseOk(w, was) && AttemptOpen(w, was.step, was.job);
      }
    }
  }

  lemma OwnAttemptOpenKept(w: World, k: nat, m: Move)
    requires Queue(w) && Workers(w) && Attempts(w) && Coupled(w)
    requires k < |w.workers| && Legal(w, k, m) && m.phase.Running?
    ensures AttemptOpen(Perform(w, k, m), m.phase.step, m.phase.job)
  {
    var was := w.workers[k];
    assert PhaseOk(w, was);
    assert was.Running? ==> OwnsExec(w, was.step, was.job) && AttemptOpen(w, was.step, was.job);
  }

  lemma OtherAttemptOpenKept(w: World, k: nat, m: Move, l: nat)
    requires Queue(w) && Workers(w) && Attempts(w) && Coupled(w) && k < |w.workers| && Legal(w, k, m)
    requires l < |w.workers| && l != k && w.workers[l].Running?
    ensures AttemptOpen(Perform(w, k, m), w.workers[l].step, w.workers[l].job)
  {
    var was, other := w.workers[k], w.workers[l];
    assert PhaseOk(w, was) && PhaseOk(w, other) && RowOk(w.t.signals[other.job.row], true) by {
      assert RowOk(w.t.signals[other.job.row], other.job.row < |w.claims|);
    }
    hide RowOk, RowCoupled, HasExec;
    assert OwnsExec(w, other.step, other.job) && AttemptOpen(w, other.step, other.job);
    if was.Running? {
      assert OwnsExec(w, was.step, was.job) && was.job.row != other.job.row;
    }
    StatusAfter(w.t, m.effect, other.job.row);
  }

  lemma HasExecKept(w: World, k: nat, m: Move, i: nat)
    requires k < |w.workers| && HasExec(w, i)
    ensures HasExec(Perform(w, k, m), i)
  {
    var e :| 0 <= e < |w.t.execs| && w.t.execs[e].signal == i;
    assert Perform(w, k, m).t.execs[e].signal == i;
  }

  lemma CoupledKept(w: World, k: nat, m: Move)
    requires Queue(w) && Workers(w) && Attempts(w) && Coupled(w) && k < |w.workers| && Legal(w, k, m)
    ensures |Perform(w, k, m).claims| <= |w.t.signals| && Coupled(Perform(w, k, m))
  {
    var v := Perform(w, k, m);
    QueueKept(w, k, m);
    CoupledRowsKept(w, k, m);
    forall l | 0 <= l < |v.workers| && v.workers[l].Running?
      ensures AttemptOpen(v, v.workers[l].step, v.workers[l].job)
    {
      if l == k {
        OwnAttemptOpenKept(w, k, m);
      } else {
        OtherAttemptOpenKept(w, k, m, l);
      }
    }
    var was := w.workers[k];
    forall i | 0 <= i < |v.claims|
      ensures Unresolved(v.t.signals[i].status) || HasExec(v, i)
    {
      if i < |w.claims| && HasExec(w, i) {
        HasExecKept(w, k, m, i);
      }
      if m.effect.SetStatus? && m.effect.row == i {
        assert OwnsExec(w, was.step, was.job);
        assert v.t.execs[was.job.exec].signal == i;
      }
      if m.effect.ClaimRow? {
        assert RowOk(w.t.signals[m.effect.row], m.effect.row < |w.claims|);
      }
    }
  }

  lemma ExposedKept(w: World, k: nat, m: Move)
    requires Queue(w) && Workers(w) && Attempts(w) && Orders(w) && Coupled(w)
    requires Exposed(w) && k < |w.workers| && Legal(w, k, m)
    ensures Orders(Perform(w, k, m)) && Exposed(Perform(w, k, m))
  {
    var v := Perform(w, k, m);
    var was := w.workers[k];
    OrdersKept(w, k, m);
    assert PhaseOk(w, was);
    assert was.Running? ==> AttemptOpen(w, was.step, was.job) && Remembers(w, k);
    forall n | 0 <= n < |v.orders|
      ensures var st := v.t.signals[v.orders[n].row].status; st == SendStatus(v.orders[n].result) || Unresolved(st)
    {
      assert n < |w.orders| ==> OrderOk(w, w.orders[n]);
      if m.effect.ClaimRow? {
        assert RowOk(w.t.signals[m.effect.row], m.effect.row < |w.claims|);
      }
    }
  }

  lemma LogsGrow(w: World, k: nat, m: Move, row: nat, status: Status, tag: string)
    requires k < |w.workers|
    ensures HasOrder(w, row, status) ==> HasOrder(Perform(w, k, m), row, status)
    ensures HasLookup(w, row, tag) ==> HasLookup(Perform(w, k, m), row, tag)
  {
    var v := Perform(w, k, m);
    assert w.orders <= v.orders && w.lookups <= v.lookups;
    if HasOrder(w, row, status) {
      var n :| 0 <= n < |w.orders| && w.orders[n].row == row && SendStatus(w.orders[n].result) == status;
      assert v.orders[n] == w.orders[n];
    }
    if HasLookup(w, row, tag) {
      var n :| 0 <= n < |w.lookups| && w.lookups[n].row == row && tag in w.lookups[n].deals;
      assert v.lookups[n] == w.lookups[n];
    }
  }

  lemma SettledByOrder(w: World, k: nat)
    requires k < |w.workers| && w.workers[k].Running? && Remembers(w, k)
    requires w.workers[k].job.outcome.Sent?
    ensures HasOrder(w, w.workers[k].job.row, OutcomeStatus(w.workers[k].job.outcome))
  {
  }

  predicate RecoveryJustified(cfg: Settings, w: World, f: Effect) {
    f.Reconciled? && f.status == RecoveredExecuted && f.row < |w.t.signals| ==>
      f.deals.Some? && cfg.tag(w.t.signals[f.row].payload.id) in f.deals.value
  }

  /** Only three effects change a status. */
  function NewStatus(f: Effect, i: nat, status: Status): Status {
    if f.SetStatus? && f.row == i then f.status
    else if f.Reconciled? && f.row == i then f.status
    else if f.ClaimRow? && f.row == i then Processing
    else status
  }

  lemma StatusAfter(t: Tables, f: Effect, i: nat)
    requires i < |t.signals|
    ensures |PerformOn(t, f).signals| == |t.signals|
    ensures PerformOn(t, f).signals[i].status == NewStatus(f, i, t.signals[i].status)
    ensures PerformOn(t, f).signals[i].payload == t.signals[i].payload
  {
  }

  lemma RowTracedKept(cfg: Settings, w: World, k: nat, m: Move, i: nat)
    requires Workers(w) && Orders(w) && Traced(cfg, w) && k < |w.workers| && Legal(w, k, m) && i < |w.t.signals|
    requires RecoveryJustified(cfg, w, m.effect)
    ensures var r := PerformOn(w.t, m.effect).signals;
      i < |r| && RowTraced(cfg, Perform(w, k, m), i, r[i])
  {
    var f, r := m.effect, w.t.signals[i];
    assert RowTraced(cfg, w, i, r);
    StatusAfter(w.t, f, i);
    LogsGrow(w, k, m, i, r.status, cfg.tag(r.payload.id));
    if f.SetStatus? && f.row == i {
      var was := w.workers[k];
      assert PhaseOk(w, was) && Remembers(w, k);
      if was.job.outcome.Sent? {
        SettledByOrder(w, k);
        LogsGrow(w, k, m, i, f.status, "");
      }
    } else if f.Reconciled? && f.row == i && f.status == RecoveredExecuted {
      assert Perform(w, k, m).lookups[|w.lookups|] == Lookup(i, f.deals.value);
    }
  }

  lemma TracedKept(cfg: Settings, w: World, k: nat, m: Move)
    requires Workers(w) && Orders(w) && Traced(cfg, w) && k < |w.workers| && Legal(w, k, m)
    requires RecoveryJustified(cfg, w, m.effect)
    ensures Traced(cfg, Perform(w, k, m))
  {
    assert |Perform(w, k, m).t.signals| == |w.t.signals|;
    forall i | 0 <= i < |w.t.signals|
      ensures RowTraced(cfg, Perform(w, k, m), i, Perform(w, k, m).t.signals[i])
    {
      RowTracedKept(cfg, w, k, m, i);
    }
  }

  // ---- every event ----

  lemma ChooseLegal(cfg: Settings, w: World, e: Event)
    requires !e.Submit? && !e.PositionClosed? && e.k < |w.workers|
    requires Queue(w) && Workers(w)
    ensures Legal(w, e.k, Choose(cfg, w, e))
    ensures RecoveryJustified(cfg, w, Choose(cfg, w, e).effect)
  {
    assert PhaseOk(w, w.workers[e.k]);
    if e.Advance? && w.workers[e.k].Running? {
      DecideLegal(cfg, w, e.k, e.answer);
    }
  }

  /** The environment only appends pending rows. */
  ghost predicate Grown(w: World, v: World) {
    && v.workers == w.workers && v.orders == w.orders && v.claims == w.claims && v.lookups == w.lookups && v.checks == w.checks
    && v.t.execs == w.t.execs && |v.t.signals| >= |w.t.signals|
    && forall i | 0 <= i < |w.t.signals| :: v.t.signals[i] == w.t.signals[i]
  }

  lemma GrownAttempts(w: World, v: World)
    requires Workers(w) && Attempts(w) && Orders(w) && Grown(w, v)
    ensures Workers(v) && Attempts(v) && Orders(v)
  {
    forall k | 0 <= k < |v.workers|
      ensures PhaseOk(v, v.workers[k])
      ensures v.workers[k].Running? ==> OwnsExec(v, v.workers[k].step, v.workers[k].job) && Remembers(v, k)
    {
      OtherPhaseOk(w, v, w.workers[k]);
      assert w.workers[k].Running? ==> OwnsExec(w, w.workers[k].step, w.workers[k].job) && Remembers(w, k);
    }
    forall n | 0 <= n < |v.orders|
      ensures OrderOk(v, v.orders[n])
    {
      assert OrderOk(w, w.orders[n]);
    }
  }

  lemma GrownTables(cfg: Settings, w: World, v: World)
    requires Safe(cfg, w) && Grown(w, v) && Orders(v) && |v.claims| <= |v.t.signals|
    requires forall i | |w.t.signals| <= i < |v.t.signals| :: v.t.signals[i].status == Pending
    ensures Coupled(v) && Exposed(v) && Traced(cfg, v)
  {
    forall k | 0 <= k < |v.workers| && v.workers[k].Running?
      ensures AttemptOpen(v, v.workers[k].step, v.workers[k].job)
    {
      assert AttemptOpen(w, w.workers[k].step, w.workers[k].job);
    }
    forall e | 0 <= e < |v.t.execs|
      ensures RowCoupled(v, e)
    {
      assert RowCoupled(w, e);
    }
    forall i | 0 <= i < |v.claims|
      ensures Unresolved(v.t.signals[i].status) || HasExec(v, i)
    {
      assert HasExec(w, i) ==> HasExec(v, i);
    }
    forall i | 0 <= i < |w.t.signals|
      ensures RowTraced(cfg, v, i, v.t.signals[i])
    {
      assert RowTraced(cfg, w, i, w.t.signals[i]);
    }
  }

  /** Submissions and closed positions keep every invariant. */
  lemma EnvironmentKeepsSafe(cfg: Settings, w: World, e: Event)
    requires Safe(cfg, w) && (e.Submit? || e.PositionClosed?)
    ensures Safe(cfg, Apply(cfg, w, e))
  {
    var v := Apply(cfg, w, e);
    GrownAttempts(w, v);
    GrownTables(cfg, w, v);
  }

  lemma EventKeepsSafe(cfg: Settings, w: World, e: Event)
    requires Safe(cfg, w)
    ensures Safe(cfg, Apply(cfg, w, e))
  {
    if e.Submit? || e.PositionClosed? {
      EnvironmentKeepsSafe(cfg, w, e);
    } else if e.k < |w.workers| {
      var m := Choose(cfg, w, e);
      ChooseLegal(cfg, w, e);
      QueueKept(w, e.k, m);
      WorkersKept(w, e.k, m);
      AttemptsKept(w, e.k, m);
      CoupledKept(w, e.k, m);
      ExposedKept(w, e.k, m);
      TracedKept(cfg, w, e.k, m);
    }
  }

  lemma InitialSafe(cfg: Settings, n: nat, open: nat)
    ensures Safe(cfg, Initial(n, open))
  {
  }

  /** Every reachable world is safe. */
  lemma {:induction false} RunIsSafe(cfg: Settings, n: nat, open: nat, events: seq<Event>)
    ensures Safe(cfg, Run(cfg, Initial(n, open), events))
  {
    if events == [] {
      InitialSafe(cfg, n, open);
    } else {
      var last := |events| - 1;
      RunIsSafe(cfg, n, open, events[..last]);
      EventKeepsSafe(cfg, Run(cfg, Initial(n, open), events[..last]), events[last]);
    }
  }

  lemma ReachableIsSafe(cfg: Settings, n: nat, w: World)
    requires Reachable(cfg, n, w)
    ensures Safe(cfg, w)
  {
    hide Run, Initial, Safe;
    var open: nat, events: seq<Event> :| w == Run(cfg, Initial(n, open), events);
    RunIsSafe(cfg, n, open, events);
  }

  // ---- settings that change from start to start ----

  lemma SafeForTag(cfg: Settings, other: Settings, w: World)
    requires Safe(cfg, w) && other.tag == cfg.tag
    ensures Safe(other, w)
  {
    hide Queue, Workers, Attempts, Coupled, Exposed, HasOrder, HasLookup;
    forall i | 0 <= i < |w.t.signals|
      ensures RowTraced(other, w, i, w.t.signals[i])
    {
      assert RowTraced(cfg, w, i, w.t.signals[i]);
    }
  }

  lemma {:induction false} RunUnderIsSafe(cfg: Settings, n: nat, open: nat, steps: seq<(Settings, Event)>)
    requires Tagged(cfg.tag, steps)
    ensures Safe(cfg, RunUnder(Initial(n, open), steps))
  {
    hide Safe, Apply, Initial;
    if steps == [] {
      InitialSafe(cfg, n, open);
    } else {
      var last := |steps| - 1;
      RunUnderIsSafe(cfg, n, open, steps[..last]);
      var w := RunUnder(Initial(n, open), steps[..last]);
      SafeForTag(cfg, steps[last].0, w);
      EventKeepsSafe(steps[last].0, w, steps[last].1);
      SafeForTag(steps[last].0, cfg, Apply(steps[last].0, w, steps[last].1));
    }
  }

  /** Safe for any settings with that tag. */
  ghost predicate SafeUnder(tag: string -> string, w: World) {
    forall cfg: Settings :: cfg.tag == tag ==> Safe(cfg, w)
  }

  lemma ReachableIsSafeUnder(tag: string -> string, n: nat, w: World)
    requires ReachableUnder(tag, n, w)
    ensures SafeUnder(tag, w)
    ensures Queue(w) && Workers(w) && Attempts(w) && Orders(w) && Coupled(w) && Exposed(w)
  {
    hide Initial, Tagged, Apply, Queue, Workers, Attempts, Orders, Coupled, Exposed, Traced;
    var open: nat, steps: seq<(Settings, Event)> :| Tagged(tag, steps) && w == RunUnder(Initial(n, open), steps);
    forall cfg: Settings | cfg.tag == tag
      ensures Safe(cfg, w)
    {
      RunUnderIsSafe(cfg, n, open, steps);
    }
    var some := Settings(true, false, 0, 1.0, 1.0, 1, 1, 1, true, true, true, 1, map[], tag);
    assert Safe(some, w);
  }
}
