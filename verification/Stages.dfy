/** The pipeline of early returns against the ordered gates: what one stage of the imperative
    attempt has to show about its tests so that the state machine takes the same step. */
module Stages {
  import opened Types
  import opened Pipeline
  import opened Machine
  import opened Safety
  import opened Certified
  import opened Guarantees

  /** A stage's gates, what it records when all pass, and the step that follows. */
  datatype Slice = Slice(from: nat, until: nat, job: Job, effect: Effect, next: Step)

  predicate WellFormed(x: Slice) {
    x.from <= x.until <= GATES
  }

  function Pass(cfg: Settings, x: Slice): Move
    requires WellFormed(x)
  {
    Through(cfg, x.job, x.from, x.until, x.effect, x.next)
  }

  function Seeing(o: Observed): Answer {
    Answer(0, 0, o, None, false, false)
  }

  /** The gates from the slice's first one up to the `n`-th let the attempt pass. */
  ghost predicate PassedTo(cfg: Settings, x: Slice, n: nat) {
    forall g: Gate | x.from <= Rank(g) < n :: GateResult(cfg, x.job.payload, x.job.seen, g).None?
  }

  lemma PassOne(cfg: Settings, x: Slice, g: Gate)
    requires PassedTo(cfg, x, Rank(g)) && GateResult(cfg, x.job.payload, x.job.seen, g).None?
    ensures PassedTo(cfg, x, Rank(g) + 1)
  {
    forall h: Gate | x.from <= Rank(h) < Rank(g) + 1
      ensures GateResult(cfg, x.job.payload, x.job.seen, h).None?
    {
      assert Rank(h) == Rank(g) ==> GateAt(Rank(h)) == GateAt(Rank(g));
    }
  }

  function StoppedAt(x: Slice, g: Gate, status: Status): Job {
    x.job.(outcome := Stopped(g, status))
  }

  /** An early return at a gate whose predecessors passed is what the ordered gates give. */
  lemma StopsHere(cfg: Settings, x: Slice, g: Gate, status: Status)
    requires WellFormed(x) && x.from <= Rank(g) < x.until && PassedTo(cfg, x, Rank(g))
    requires GateResult(cfg, x.job.payload, x.job.seen, g) == Some(status)
    ensures Pass(cfg, x) == Move(NoEffect, Running(FinishExec, StoppedAt(x, g, status)))
  {
    hide GateResult, PassedTo;
    FirstIsHere(cfg, x, g);
  }

  lemma FirstIsHere(cfg: Settings, x: Slice, g: Gate)
    requires WellFormed(x) && x.from <= Rank(g) < x.until && PassedTo(cfg, x, Rank(g))
    requires GateResult(cfg, x.job.payload, x.job.seen, g).Some?
    ensures FirstIn(Failing(cfg, x.job.payload, x.job.seen), x.from, x.until) == Some(g)
  {
    hide GateResult, GateAt, Rank, FirstIn;
    var r := FirstIn(Failing(cfg, x.job.payload, x.job.seen), x.from, x.until);
    assert g in Failing(cfg, x.job.payload, x.job.seen);
    assert r.Some? && Rank(r.value) == Rank(g);
    assert GateAt(Rank(r.value)) == GateAt(Rank(g));
  }

  lemma PassesAll(cfg: Settings, x: Slice)
    requires WellFormed(x) && PassedTo(cfg, x, x.until)
    ensures Pass(cfg, x) == Move(x.effect, Running(x.next, x.job))
  {
    hide GateResult;
  }

  // ---- the slices of the steps ----

  function AdmitSlice(cfg: Settings, j: Job, now: int): Slice {
    Slice(0, 3, j.(seen := j.seen.(now := now)), UpdateExec(j.exec, SymbolField(MappedSymbol(cfg, j.payload))), Normalize)
  }

  function IdentifySlice(j: Job, connected: bool, account: Option<Account>): Slice {
    var r := j.(seen := Identified(j.seen, NOTHING.(connected := connected, account := account)));
    Slice(3, 6, r, UpdateExec(j.exec, AccountField(Key(r.seen))), Quote)
  }

  function QuoteSlice(j: Job, info: Option<SymbolInfo>, tick: Option<Tick>): Slice {
    var r := j.(seen := j.seen.(info := info, tick := tick));
    Slice(6, 8, r, UpdateExec(j.exec, EntryField(EntryPrice(j.payload, r.seen))), Guard)
  }

  function GuardSlice(j: Job, brokerNow: Option<int>): Slice {
    Slice(8, 11, j.(seen := j.seen.(brokerNow := brokerNow)), NoEffect, CountDay)
  }

  function CountSlice(j: Job, t: Tables): Slice {
    Slice(11, 12, j.(seen := j.seen.(trades := CountTrades(t.execs, Key(j.seen), DayStart(j.seen)))), NoEffect, CountPositions)
  }

  function PositionsSlice(j: Job, positions: Option<seq<int>>): Slice {
    Slice(12, 14, j.(seen := j.seen.(positions := positions)), NoEffect, ReadBaseline)
  }

  function SizeSlice(j: Job, profit: Option<real>): Slice {
    var r := j.(seen := Priced(j.payload, j.seen, NOTHING.(profit := profit)));
    Slice(14, 17, r, UpdateExec(j.exec, VolumeField(PlannedVolume(r.seen))), Check)
  }

  lemma AdmitIs(cfg: Settings, t: Tables, j: Job, now: int)
    requires j.row < |t.signals|
    ensures Decide(cfg, t, Admit, j, Seeing(NOTHING.(now := now))) == Pass(cfg, AdmitSlice(cfg, j, now))
  {
  }

  lemma IdentifyIs(cfg: Settings, t: Tables, j: Job, connected: bool, account: Option<Account>)
    requires j.row < |t.signals|
    ensures Decide(cfg, t, Identify, j, Seeing(NOTHING.(connected := connected, account := account))) ==
      Pass(cfg, IdentifySlice(j, connected, account))
  {
  }

  lemma QuoteIs(cfg: Settings, t: Tables, j: Job, info: Option<SymbolInfo>, tick: Option<Tick>)
    requires j.row < |t.signals|
    ensures Decide(cfg, t, Quote, j, Seeing(NOTHING.(info := info, tick := tick))) == Pass(cfg, QuoteSlice(j, info, tick))
  {
  }

  lemma GuardIs(cfg: Settings, t: Tables, j: Job, brokerNow: Option<int>)
    requires j.row < |t.signals|
    ensures Decide(cfg, t, Guard, j, Seeing(NOTHING.(brokerNow := brokerNow))) == Pass(cfg, GuardSlice(j, brokerNow))
  {
  }

  lemma CountIs(cfg: Settings, t: Tables, j: Job)
    requires j.row < |t.signals|
    ensures Decide(cfg, t, CountDay, j, Seeing(NOTHING)) == Pass(cfg, CountSlice(j, t))
  {
  }

  lemma PositionsIs(cfg: Settings, t: Tables, j: Job, positions: Option<seq<int>>)
    requires j.row < |t.signals|
    ensures Decide(cfg, t, CountPositions, j, Seeing(NOTHING.(positions := positions))) == Pass(cfg, PositionsSlice(j, positions))
  {
  }

  lemma VolumeIsFirst(cfg: Settings, x: Slice)
    requires x.from == 14 && x.until == 17 && GateResult(cfg, x.job.payload, x.job.seen, VolumeFound).Some?
    ensures FirstIn(Failing(cfg, x.job.payload, x.job.seen), 14, 17) == Some(VolumeFound) <==> PassedTo(cfg, x, 16)
  {
    hide GateResult;
    var fails := Failing(cfg, x.job.payload, x.job.seen);
    assert VolumeFound in fails;
    var r := FirstIn(fails, 14, 17);
    assert r.Some? && Rank(r.value) <= 16;
    if PassedTo(cfg, x, 16) {
      assert Rank(r.value) == 16 && GateAt(16) == VolumeFound;
    } else {
      var g: Gate :| 14 <= Rank(g) < 16 && GateResult(cfg, x.job.payload, x.job.seen, g).Some?;
      assert g in fails;
    }
  }

  /** Sizing raises exactly when the gates before it pass and the calculation raises. */
  lemma SizeIs(cfg: Settings, t: Tables, j: Job, profit: Option<real>)
    requires j.row < |t.signals|
    ensures var x := SizeSlice(j, profit);
      Decide(cfg, t, Size, j, Seeing(NOTHING.(profit := profit))) ==
      if PassedTo(cfg, x, 16) && x.job.seen.sized.Raised? then Move(NoEffect, Idle) else Pass(cfg, x)
  {
    hide FirstIn, Failing, PassedTo, VolumeOf;
    var x := SizeSlice(j, profit);
    if x.job.seen.sized.Raised? {
      VolumeIsFirst(cfg, x);
    }
  }

  lemma RaisedWithoutStop(p: Payload, o: Observed)
    ensures VolumeOf(p, o).Raised? ==> p.stopLoss.None?
  {
  }

  lemma StopGatePassed(cfg: Settings, j: Job)
    requires JobCertified(cfg, Size, j) && j.outcome.Undecided? && j.payload.stopLoss.None?
    ensures !cfg.requireStopLoss
  {
    assert Rank(StopLossValid) == 9;
    assert StopLossValid !in Failing(cfg, j.payload, j.seen);
  }

  // ---- the steps without gates, and the send ----

  lemma InsertIs(cfg: Settings, t: Tables, j: Job, startedAt: int)
    requires j.row < |t.signals|
    ensures Decide(cfg, t, Insert, j, Answer(startedAt, 0, NOTHING, None, false, false)) ==
      Move(InsertExec(NewExecution(cfg, j, t.signals[j.row].attempts, startedAt)), Running(Admit, j.(exec := |t.execs|)))
  {
  }

  lemma NormalizeIs(cfg: Settings, t: Tables, j: Job)
    requires j.row < |t.signals|
    ensures Decide(cfg, t, Normalize, j, Seeing(NOTHING)) ==
      Move(StoreSymbol(j.row, MappedSymbol(cfg, j.payload)), Running(Identify, j))
  {
  }

  lemma BaselineIs(cfg: Settings, t: Tables, j: Job)
    requires j.row < |t.signals|
    ensures var key := BaselineKeyOf(j.seen);
      && Decide(cfg, t, ReadBaseline, j, Seeing(NOTHING)) ==
           (if key in t.baselines then Move(NoEffect, Running(Size, j.(seen := j.seen.(baseline := t.baselines[key]))))
            else Move(NoEffect, Running(WriteBaseline, j)))
      && Decide(cfg, t, WriteBaseline, j, Seeing(NOTHING)) ==
           Move(StoreBaseline(key, Equity(j.seen)), Running(Size, j.(seen := j.seen.(baseline := Equity(j.seen)))))
  {
  }

  lemma CheckIs(cfg: Settings, t: Tables, j: Job, code: Option<int>)
    requires j.row < |t.signals|
    ensures Decide(cfg, t, Check, j, Seeing(NOTHING.(check := code))) ==
      Move(AskCheck(Inquiry(j.row, j.exec, OrderRequest(cfg, j.payload, j.seen), code)),
           Running(RecordCheck, j.(seen := j.seen.(check := code))))
    ensures Decide(cfg, t, RecordCheck, j, Seeing(NOTHING)) ==
      Move(UpdateExec(j.exec, CheckField(j.seen.check)), Running(Send, j))
  {
  }

  function Sending(result: Option<SendResult>, filled: bool, opens: bool): Answer {
    Answer(0, 0, NOTHING, result, filled, opens)
  }

  function SendSlice(cfg: Settings, j: Job, a: Answer): Slice {
    Slice(17, 19, j, SendOrder(OrderOf(cfg, j, a)), RecordSend)
  }

  lemma SendStops(cfg: Settings, t: Tables, j: Job, a: Answer, g: Gate, status: Status)
    requires j.row < |t.signals| && 17 <= Rank(g) < 19 && PassedTo(cfg, SendSlice(cfg, j, a), Rank(g))
    requires GateResult(cfg, j.payload, j.seen, g) == Some(status)
    ensures Decide(cfg, t, Send, j, a) == Pass(cfg, SendSlice(cfg, j, a))
  {
    hide FirstIn, Failing, PassedTo, GateResult;
    StopsHere(cfg, SendSlice(cfg, j, a), g, status);
  }

  lemma SendPasses(cfg: Settings, t: Tables, j: Job, a: Answer)
    requires j.row < |t.signals| && PassedTo(cfg, SendSlice(cfg, j, a), 19)
    ensures var order := OrderOf(cfg, j, a);
      Decide(cfg, t, Send, j, a) == Move(SendOrder(order), Running(RecordSend, j.(outcome := Sent(order))))
  {
    hide FirstIn, Failing, PassedTo, GateResult;
    PassesAll(cfg, SendSlice(cfg, j, a));
  }

  lemma RecordIs(cfg: Settings, t: Tables, j: Job)
    requires j.row < |t.signals| && j.outcome.Sent?
    ensures var result := j.outcome.order.result;
      Decide(cfg, t, RecordSend, j, Seeing(NOTHING)) ==
      Move(UpdateExec(j.exec, SendField(ReturnedCode(result))), Running(FinishExec, j))
  {
  }

  lemma FinishIs(cfg: Settings, t: Tables, j: Job, a: Answer)
    requires j.row < |t.signals|
    ensures Decide(cfg, t, FinishExec, j, a) ==
      Move(UpdateExec(j.exec, FinishFields(OutcomeStatus(j.outcome), a.finishedAt, OutcomeReceipt(j.outcome))), Running(FinishSignal, j))
    ensures Decide(cfg, t, FinishSignal, j, a) == Move(SetStatus(j.row, OutcomeStatus(j.outcome)), Idle)
  {
  }

  // ---- frames ----

  /** Between two points of an attempt only its own rows change, baselines stay once written,
      and the attempt's row keeps all but its mapped symbol. */
  ghost predicate Focused(t: Tables, q: Tables, row: nat, exec: nat) {
    && |q.signals| == |t.signals| && |q.execs| == |t.execs|
    && (forall i | 0 <= i < |t.signals| ::
          q.signals[i] == if i == row then t.signals[i].(normalized := q.signals[i].normalized) else t.signals[i])
    && (forall e | 0 <= e < |t.execs| && e != exec :: q.execs[e] == t.execs[e])
    && (forall key | key in t.baselines :: key in q.baselines && q.baselines[key] == t.baselines[key])
  }

  predicate OwnEffect(f: Effect, row: nat, exec: nat) {
    match f
    case NoEffect => true
    case UpdateExec(e, _) => e == exec
    case StoreSymbol(i, _) => i == row
    case StoreBaseline(_, _) => true
    case AskCheck(_) => true
    case SendOrder(_) => true
    case _ => false
  }

  lemma EffectStaysFocused(s: Tables, t: Tables, f: Effect, row: nat, exec: nat)
    requires Focused(s, t, row, exec) && OwnEffect(f, row, exec)
    ensures Focused(s, PerformOn(t, f), row, exec)
  {
  }

  /** An attempt leaves every row but its own two, and every stored baseline, as they were. */
  ghost predicate OthersKept(t: Tables, q: Tables, row: nat, exec: nat) {
    && |q.signals| == |t.signals| && |q.execs| == |t.execs|
    && (forall i | 0 <= i < |t.signals| && i != row :: q.signals[i] == t.signals[i])
    && (row < |t.signals| ==> q.signals[row] == t.signals[row].(status := q.signals[row].status, normalized := q.signals[row].normalized))
    && (forall e | 0 <= e < |t.execs| && e != exec :: q.execs[e] == t.execs[e])
    && (forall key | key in t.baselines :: key in q.baselines && q.baselines[key] == t.baselines[key])
  }

  lemma StatusKeepsOthers(s: Tables, t: Tables, row: nat, exec: nat, status: Status)
    requires Focused(s, t, row, exec)
    ensures OthersKept(s, SetRow(t, row, status), row, exec)
  {
  }

  lemma ExplainedSettles(cfg: Settings, w: World, t: Tables, j: Job)
    requires Explained(cfg, w, t, j)
    ensures j.row < |t.signals| && t.signals[j.row].status == OutcomeStatus(j.outcome)
    ensures Settled(OutcomeStatus(j.outcome))
  {
    if j.outcome.Stopped? {
      GateStatusIsRejection(cfg, j.payload, j.seen, j.outcome.gate);
    }
  }

  lemma ExplainedOrder(cfg: Settings, w: World, t: Tables, j: Job)
    requires Explained(cfg, w, t, j) && j.outcome.Sent?
    ensures j.seen.check == Some(0) || j.seen.check == Some(10009)
  {
    assert CheckPassed !in Failing(cfg, j.payload, j.seen);
  }

  lemma SameExplanation(cfg: Settings, w: World, v: World, t: Tables, j: Job)
    requires Explained(cfg, w, t, j) && v.orders == w.orders && v.checks == w.checks
    ensures Explained(cfg, v, t, j)
  {
  }

  // ---- the machine's side of one step ----

  lemma AdvanceIs(cfg: Settings, w: World, s: Step, j: Job, a: Answer)
    requires w.workers == [Running(s, j)] && j.row < |w.t.signals|
    ensures Apply(cfg, w, Advance(0, a)) == Perform(w, 0, Decide(cfg, w.t, s, j, a))
  {
  }

  lemma PerformIs(w: World, m: Move)
    requires |w.workers| == 1
    ensures var v := Perform(w, 0, m);
      && v.workers == [m.phase] && v.t == PerformOn(w.t, m.effect)
      && v.orders == (if m.effect.SendOrder? then w.orders + [m.effect.order] else w.orders)
      && v.claims == (if m.effect.ClaimRow? then w.claims + [m.effect.row] else w.claims)
  {
  }

  lemma ReconcileIs(cfg: Settings, w: World, row: nat, rest: seq<nat>, reachable: bool, deals: seq<string>)
    requires w.workers == [Recovering([row] + rest)] && row < |w.t.signals|
    ensures var v := Apply(cfg, w, Reconcile(0, reachable, deals));
      && v.workers == [Recovering(rest)] && v.orders == w.orders
      && v.t == SetRow(w.t, row, RecoveryStatus(cfg, w.t.signals[row].payload.id, reachable, deals))
  {
    assert ([row] + rest)[1..] == rest;
  }

  lemma RecoveryEndsIs(cfg: Settings, w: World)
    requires w.workers == [Recovering([])]
    ensures Apply(cfg, w, Reconcile(0, false, [])) == w.(workers := [Idle])
  {
  }

  lemma StartIs(cfg: Settings, w: World)
    requires w.workers == [Down]
    ensures Apply(cfg, w, Start(0)) == w.(workers := [Recovering(RowsWith(w.t.signals, Processing))])
  {
  }

  lemma KillIs(cfg: Settings, w: World)
    requires |w.workers| == 1
    ensures Apply(cfg, w, Kill(0)) == w.(workers := [Down])
  {
  }

  /** The claim of a loop round: select and guarded update with nothing in between. */
  lemma ClaimIs(cfg: Settings, w: World)
    requires w.workers == [Idle]
    ensures var row := LeastPending(w.t.signals, 0);
      var v := Apply(cfg, Apply(cfg, w, Select(0)), Claim(0));
      && v.orders == w.orders
      && match row
         case None => v.workers == [Idle] && v.t == w.t
         case Some(i) =>
           v.workers == [Running(Insert, Job(i, w.t.signals[i].payload, 0, NOTHING, Undecided))] && v.t == PerformOn(w.t, ClaimRow(i))
  {
  }

  lemma RunExtends(cfg: Settings, w: World, events: seq<Event>, e: Event)
    ensures Run(cfg, w, events + [e]) == Apply(cfg, Run(cfg, w, events), e)
  {
    assert (events + [e])[..|events|] == events;
  }
}
