/** Two concrete runs that show where the daily trade limit is not what it says: a filled trade
    that recovery finds and the count does not, and two trades of one broker day under a cap
    of one. */
module Witness {
  import opened Types
  import opened Risk
  import opened Sizing
  import opened AccountKeys
  import opened Pipeline
  import opened Machine
  import opened Safety
  import opened Certified
  import opened Audit
  import opened Guarantees
  import opened SingleConsumer
  import opened DailyLimits
  import opened Progress
  import opened Recovery
  import opened Stages

  // ---- an attempt that nothing stops ----

  /** A reachable world in which the attempt on row `i` of `w` has come to a step: beside its
      own two rows and the baselines everything is as it was. */
  ghost predicate Track(cfg: Settings, w: World, v: World, started: int, s: Step, j: Job) {
    && Reachable(cfg, 1, v) && v.workers == [Running(s, j)] && v.orders == w.orders
    && j.exec == |w.t.execs| && |v.t.execs| == |w.t.execs| + 1 && v.t.execs[..j.exec] == w.t.execs
    && v.t.execs[j.exec].startedAt == started
    && j.row < |w.t.signals| == |v.t.signals|
    && (forall k | 0 <= k < |w.t.signals| && k != j.row :: v.t.signals[k] == w.t.signals[k])
    && v.t.signals[j.row].payload == w.t.signals[j.row].payload == j.payload
  }

  lemma TrackStep(cfg: Settings, w: World, v: World, started: int, s: Step, j: Job, a: Answer, m: Move, next: Step, k: Job)
    returns (u: World)
    requires Track(cfg, w, v, started, s, j) && Decide(cfg, v.t, s, j, a) == m && m.phase == Running(next, k)
    requires OwnEffect(m.effect, j.row, j.exec) && !m.effect.SendOrder?
    requires k.row == j.row && k.exec == j.exec && k.payload == j.payload
    ensures Track(cfg, w, u, started, next, k) && u.t == PerformOn(v.t, m.effect)
  {
    hide Run, Initial, Apply, Decide, Reachable;
    u := Apply(cfg, v, Advance(0, a));
    ReachableStep(cfg, 1, v, Advance(0, a));
    AdvanceIs(cfg, v, s, j, a);
    PerformIs(v, m);
    PerformKeepsTrack(v.t, m.effect, j.row, j.exec);
    assert u.t.execs[..j.exec] == v.t.execs[..j.exec];
  }

  lemma PerformKeepsTrack(t: Tables, f: Effect, row: nat, exec: nat)
    requires OwnEffect(f, row, exec) && exec < |t.execs| && row < |t.signals|
    ensures var q := PerformOn(t, f);
      && |q.execs| == |t.execs| && q.execs[exec].startedAt == t.execs[exec].startedAt
      && (forall e | 0 <= e < |t.execs| && e != exec :: q.execs[e] == t.execs[e])
      && |q.signals| == |t.signals| && q.signals[row].payload == t.signals[row].payload
      && (forall k | 0 <= k < |t.signals| && k != row :: q.signals[k] == t.signals[k])
  {
  }

  /** Observations under which every gate lets the attempt pass. */
  ghost predicate Clean(cfg: Settings, p: Payload, o: Observed) {
    && Failing(cfg, p, o) == {} && o.key == AccountKey(o) && o.sized == VolumeOf(p, o)
  }

  lemma CleanSlice(cfg: Settings, w: World, v: World, started: int, s: Step, j: Job, a: Answer, x: Slice, o: Observed)
    returns (u: World)
    requires Track(cfg, w, v, started, s, j) && Clean(cfg, j.payload, o)
    requires WellFormed(x) && Decide(cfg, v.t, s, j, a) == Pass(cfg, x) && Agree(o, x.job.seen, x.until)
    requires x.job.row == j.row && x.job.exec == j.exec && x.job.payload == j.payload
    requires OwnEffect(x.effect, j.row, j.exec) && !x.effect.SendOrder?
    ensures Track(cfg, w, u, started, x.next, x.job) && u.t == PerformOn(v.t, x.effect)
  {
    hide Run, Initial, Apply, Decide, Reachable, Pass, GateResult, Track, VolumeOf;
    forall g: Gate | x.from <= Rank(g) < x.until
      ensures GateResult(cfg, x.job.payload, x.job.seen, g).None?
    {
      assert g !in Failing(cfg, j.payload, o);
      SameGate(cfg, j.payload, o, x.job.seen, x.until, g);
    }
    PassesAll(cfg, x);
    u := TrackStep(cfg, w, v, started, s, j, a, Move(x.effect, Running(x.next, x.job)), x.next, x.job);
  }

  function Seen3(o: Observed): Observed { NOTHING.(now := o.now) }
  function Seen6(o: Observed): Observed { Seen3(o).(connected := o.connected, account := o.account, key := o.key) }
  function Seen8(o: Observed): Observed { Seen6(o).(info := o.info, tick := o.tick) }
  function Seen11(o: Observed): Observed { Seen8(o).(brokerNow := o.brokerNow) }
  function Seen12(o: Observed): Observed { Seen11(o).(trades := o.trades) }
  function Seen14(o: Observed): Observed { Seen12(o).(positions := o.positions) }
  function SeenDay(o: Observed): Observed { Seen14(o).(baseline := o.baseline) }
  function Seen17(o: Observed): Observed { SeenDay(o).(profit := o.profit, sized := o.sized) }

  /** From the inserted execution row to the quote. */
  lemma CleanStart(cfg: Settings, w: World, v: World, started: int, j: Job, o: Observed) returns (u: World)
    requires Track(cfg, w, v, started, Admit, j) && Clean(cfg, j.payload, o) && j.seen == NOTHING && j.outcome.Undecided?
    ensures Track(cfg, w, u, started, Guard, j.(seen := Seen8(o))) && u.t.baselines == v.t.baselines
  {
    hide Run, Initial, Apply, Decide, Reachable, Pass, Track, Clean, AccountKeyFor;
    TrackRow(cfg, w, v, started, Admit, j);
    AdmitIs(cfg, v.t, j, o.now);
    KeyIs(cfg, j.payload, o);
    var x := AdmitSlice(cfg, j, o.now);
    u := CleanSlice(cfg, w, v, started, Admit, j, Seeing(NOTHING.(now := o.now)), x, o);
    var j3 := j.(seen := Seen3(o));
    TrackRow(cfg, w, u, started, Normalize, j3);
    NormalizeIs(cfg, u.t, j3);
    u := TrackStep(cfg, w, u, started, Normalize, j3, Seeing(NOTHING),
                   Move(StoreSymbol(j.row, MappedSymbol(cfg, j.payload)), Running(Identify, j3)), Identify, j3);
    TrackRow(cfg, w, u, started, Identify, j3);
    IdentifyIs(cfg, u.t, j3, o.connected, o.account);
    x := IdentifySlice(j3, o.connected, o.account);
    assert x.job.seen == Seen6(o);
    u := CleanSlice(cfg, w, u, started, Identify, j3, Seeing(NOTHING.(connected := o.connected, account := o.account)), x, o);
    var j6 := j.(seen := Seen6(o));
    TrackRow(cfg, w, u, started, Quote, j6);
    QuoteIs(cfg, u.t, j6, o.info, o.tick);
    x := QuoteSlice(j6, o.info, o.tick);
    u := CleanSlice(cfg, w, u, started, Quote, j6, Seeing(NOTHING.(info := o.info, tick := o.tick)), x, o);
  }

  lemma KeyIs(cfg: Settings, p: Payload, o: Observed)
    requires Clean(cfg, p, o)
    ensures o.key == AccountKey(o)
  {
  }

  lemma TrackRow(cfg: Settings, w: World, v: World, started: int, s: Step, j: Job)
    requires Track(cfg, w, v, started, s, j)
    ensures j.row < |v.t.signals| && j.exec + 1 == |v.t.execs|
    ensures s.Insert? || s.FinishSignal? || v.t.execs[j.exec].status == Processing
    ensures v.t.execs[..j.exec] == w.t.execs
  {
    hide Run, Initial, Reachable, Queue, Attempts, Orders, Exposed, Traced;
    ReachableIsSafe(cfg, 1, v);
    assert v.workers[0] == Running(s, j);
    assert AttemptOpen(v, v.workers[0].step, v.workers[0].job);
  }

  /** The own open row counts nothing. */
  lemma CountIsBefore(cfg: Settings, w: World, v: World, started: int, s: Step, j: Job, key: string, since: int)
    requires Track(cfg, w, v, started, s, j) && !s.Insert? && !s.FinishSignal?
    ensures CountTrades(v.t.execs, key, since) == CountTrades(w.t.execs, key, since)
  {
    hide Track;
    TrackRow(cfg, w, v, started, s, j);
    assert v.t.execs[..|v.t.execs| - 1] == w.t.execs;
  }

  /** From the broker's time to the positions. */
  lemma CleanGuards(cfg: Settings, w: World, v: World, started: int, j: Job, o: Observed) returns (u: World)
    requires Track(cfg, w, v, started, Guard, j) && Clean(cfg, j.payload, o) && j.seen == Seen8(o) && j.outcome.Undecided?
    requires o.trades == CountTrades(w.t.execs, Key(o), DayStart(o))
    ensures Track(cfg, w, u, started, ReadBaseline, j.(seen := Seen14(o))) && u.t.baselines == v.t.baselines
  {
    hide Run, Initial, Apply, Decide, Reachable, Pass, Track, Clean, CountTrades;
    TrackRow(cfg, w, v, started, Guard, j);
    GuardIs(cfg, v.t, j, o.brokerNow);
    u := CleanSlice(cfg, w, v, started, Guard, j, Seeing(NOTHING.(brokerNow := o.brokerNow)), GuardSlice(j, o.brokerNow), o);
    var j11 := j.(seen := Seen11(o));
    TrackRow(cfg, w, u, started, CountDay, j11);
    CountIs(cfg, u.t, j11);
    CountIsBefore(cfg, w, u, started, CountDay, j11, Key(o), DayStart(o));
    assert CountSlice(j11, u.t).job.seen == Seen12(o);
    u := CleanSlice(cfg, w, u, started, CountDay, j11, Seeing(NOTHING), CountSlice(j11, u.t), o);
    var j12 := j.(seen := Seen12(o));
    TrackRow(cfg, w, u, started, CountPositions, j12);
    PositionsIs(cfg, u.t, j12, o.positions);
    u := CleanSlice(cfg, w, u, started, CountPositions, j12, Seeing(NOTHING.(positions := o.positions)),
                    PositionsSlice(j12, o.positions), o);
  }

  /** The baseline that the attempt will use, stored or its own equity. */
  ghost predicate BaselineFits(baselines: map<BaselineKey, real>, o: Observed) {
    o.baseline == if BaselineKeyOf(o) in baselines then baselines[BaselineKeyOf(o)] else Equity(o)
  }

  lemma CleanBaseline(cfg: Settings, w: World, v: World, started: int, j: Job, o: Observed) returns (u: World)
    requires Track(cfg, w, v, started, ReadBaseline, j) && j.seen == Seen14(o) && BaselineFits(v.t.baselines, o)
    ensures Track(cfg, w, u, started, Size, j.(seen := SeenDay(o)))
    ensures u.t.baselines == v.t.baselines[BaselineKeyOf(o) := o.baseline]
  {
    hide Run, Initial, Apply, Decide, Reachable, Track;
    TrackRow(cfg, w, v, started, ReadBaseline, j);
    BaselineIs(cfg, v.t, j);
    var k := j.(seen := SeenDay(o));
    if BaselineKeyOf(o) in v.t.baselines {
      u := TrackStep(cfg, w, v, started, ReadBaseline, j, Seeing(NOTHING), Move(NoEffect, Running(Size, k)), Size, k);
    } else {
      u := TrackStep(cfg, w, v, started, ReadBaseline, j, Seeing(NOTHING), Move(NoEffect, Running(WriteBaseline, j)), WriteBaseline, j);
      BaselineIs(cfg, u.t, j);
      u := TrackStep(cfg, w, u, started, WriteBaseline, j, Seeing(NOTHING),
                     Move(StoreBaseline(BaselineKeyOf(o), Equity(o)), Running(Size, k)), Size, k);
    }
  }

  /** Sizing and the check. */
  lemma CleanCheck(cfg: Settings, w: World, v: World, started: int, j: Job, o: Observed) returns (u: World)
    requires Track(cfg, w, v, started, Size, j) && Clean(cfg, j.payload, o) && j.seen == SeenDay(o) && j.outcome.Undecided?
    ensures Track(cfg, w, u, started, Send, j.(seen := o)) && u.t.baselines == v.t.baselines
  {
    hide Run, Initial, Apply, Decide, Reachable, Pass, Track, Failing, CalculateVolume;
    TrackRow(cfg, w, v, started, Size, j);
    SizeIs(cfg, v.t, j, o.profit);
    var x := SizeSlice(j, o.profit);
    CleanIsSized(cfg, j.payload, o);
    assert x.job.seen.sized == o.sized;
    u := CleanSlice(cfg, w, v, started, Size, j, Seeing(NOTHING.(profit := o.profit)), x, o);
    var j17, j18 := j.(seen := Seen17(o)), j.(seen := o);
    TrackRow(cfg, w, u, started, Check, j17);
    CheckIs(cfg, u.t, j17, o.check);
    u := TrackStep(cfg, w, u, started, Check, j17, Seeing(NOTHING.(check := o.check)),
                   Move(AskCheck(Inquiry(j.row, j.exec, OrderRequest(cfg, j.payload, j17.seen), o.check)), Running(RecordCheck, j18)),
                   RecordCheck, j18);
    TrackRow(cfg, w, u, started, RecordCheck, j18);
    CheckIs(cfg, u.t, j18, o.check);
    u := TrackStep(cfg, w, u, started, RecordCheck, j18, Seeing(NOTHING),
                   Move(UpdateExec(j.exec, CheckField(o.check)), Running(Send, j18)), Send, j18);
  }

  lemma CleanIsSized(cfg: Settings, p: Payload, o: Observed)
    requires Clean(cfg, p, o)
    ensures o.sized.Sized? && o.sized == VolumeOf(p, SeenDay(o).(profit := o.profit))
  {
    hide CalculateVolume;
    assert VolumeFound !in Failing(cfg, p, o);
  }

  /** An idle worker with a waiting row in a reachable world. */
  ghost predicate Waiting(cfg: Settings, w: World, i: nat) {
    Reachable(cfg, 1, w) && w.workers == [Idle] && LeastPending(w.t.signals, 0) == Some(i)
  }

  /** The claim and the inserted execution row. */
  lemma CleanClaim(cfg: Settings, w: World, i: nat, started: int) returns (u: World)
    requires Waiting(cfg, w, i)
    ensures i < |w.t.signals|
    ensures Track(cfg, w, u, started, Admit, Job(i, w.t.signals[i].payload, |w.t.execs|, NOTHING, Undecided))
    ensures u.t.baselines == w.t.baselines
  {
    hide Run, Initial, Apply, Decide, Reachable;
    ClaimIs(cfg, w);
    var v := Apply(cfg, w, Select(0));
    ReachableStep(cfg, 1, w, Select(0));
    ReachableStep(cfg, 1, v, Claim(0));
    v := Apply(cfg, v, Claim(0));
    var j := Job(i, w.t.signals[i].payload, 0, NOTHING, Undecided);
    var a := Answer(started, 0, NOTHING, None, false, false);
    InsertIs(cfg, v.t, j, started);
    AdvanceIs(cfg, v, Insert, j, a);
    PerformIs(v, Decide(cfg, v.t, Insert, j, a));
    ReachableStep(cfg, 1, v, Advance(0, a));
    u := Apply(cfg, v, Advance(0, a));
    assert u.t.execs[..|w.t.execs|] == w.t.execs;
  }

  /** The order of a clean attempt, filled and opened. */
  function FilledOrder(cfg: Settings, j: Job, o: Observed, result: Option<SendResult>): Order {
    Order(j.row, j.exec, j.payload, o, OrderRequest(cfg, j.payload, o), result, true, true)
  }

  /** After the send everything but the order log is still tracked. */
  ghost predicate TrackSent(cfg: Settings, w: World, v: World, started: int, s: Step, j: Job) {
    && Reachable(cfg, 1, v) && v.workers == [Running(s, j)] && j.outcome.Sent? && v.orders == w.orders + [j.outcome.order]
    && j.exec == |w.t.execs| && |v.t.execs| == |w.t.execs| + 1 && v.t.execs[..j.exec] == w.t.execs
    && v.t.execs[j.exec].startedAt == started
    && j.row < |w.t.signals| == |v.t.signals|
    && (forall k | 0 <= k < |w.t.signals| && k != j.row :: v.t.signals[k] == w.t.signals[k])
    && v.t.signals[j.row].payload == w.t.signals[j.row].payload == j.payload
  }

  lemma CleanSend(cfg: Settings, w: World, v: World, started: int, j: Job, o: Observed, result: Option<SendResult>)
    returns (u: World)
    requires Track(cfg, w, v, started, Send, j) && Clean(cfg, j.payload, o) && j.seen == o && j.outcome.Undecided?
    ensures TrackSent(cfg, w, u, started, RecordSend, j.(outcome := Sent(FilledOrder(cfg, j, o, result))))
    ensures u.t == v.t
  {
    hide Run, Initial, Apply, Decide, Reachable, Clean, OrderRequest, GateResult, Rank, GateAt;
    TrackRow(cfg, w, v, started, Send, j);
    var a := Answer(0, 0, NOTHING, result, true, true);
    CleanPasses(cfg, SendSlice(cfg, j, a));
    SendPasses(cfg, v.t, j, a);
    AdvanceIs(cfg, v, Send, j, a);
    PerformIs(v, Decide(cfg, v.t, Send, j, a));
    ReachableStep(cfg, 1, v, Advance(0, a));
    u := Apply(cfg, v, Advance(0, a));
  }

  lemma CleanPasses(cfg: Settings, x: Slice)
    requires Clean(cfg, x.job.payload, x.job.seen)
    ensures PassedTo(cfg, x, x.until)
  {
    hide GateResult, VolumeOf, AccountKey, Rank;
    forall g: Gate | x.from <= Rank(g) < x.until
      ensures GateResult(cfg, x.job.payload, x.job.seen, g).None?
    {
      assert g !in Failing(cfg, x.job.payload, x.job.seen);
    }
  }

  /** The whole attempt up to the answered send. */
  lemma CleanAttempt(cfg: Settings, w: World, i: nat, started: int, o: Observed, result: Option<SendResult>) returns (u: World, j: Job)
    requires Waiting(cfg, w, i) && i < |w.t.signals| && Clean(cfg, w.t.signals[i].payload, o)
    requires o.trades == CountTrades(w.t.execs, Key(o), DayStart(o)) && BaselineFits(w.t.baselines, o)
    ensures TrackSent(cfg, w, u, started, RecordSend, j) && j.row == i && j.seen == o
    ensures j.outcome == Sent(FilledOrder(cfg, j, o, result))
    ensures u.t.baselines == w.t.baselines[BaselineKeyOf(o) := o.baseline]
  {
    hide Run, Initial, Apply, Decide, Reachable, Failing, OrderRequest, GateResult, Track, Clean, TrackSent, CountTrades, LeastPending;
    var k := Job(i, w.t.signals[i].payload, |w.t.execs|, NOTHING, Undecided);
    u := CleanClaim(cfg, w, i, started);
    u := CleanStart(cfg, w, u, started, k, o);
    u := CleanGuards(cfg, w, u, started, k.(seen := Seen8(o)), o);
    u := CleanBaseline(cfg, w, u, started, k.(seen := Seen14(o)), o);
    u := CleanCheck(cfg, w, u, started, k.(seen := SeenDay(o)), o);
    k := k.(seen := o);
    u := CleanSend(cfg, w, u, started, k, o, result);
    j := k.(outcome := Sent(FilledOrder(cfg, k, o, result)));
  }

  /** The final updates of an attempt whose order is out. */
  lemma FinishTrade(cfg: Settings, w: World, v: World, started: int, j: Job) returns (u: World)
    requires TrackSent(cfg, w, v, started, RecordSend, j)
    ensures Reachable(cfg, 1, u) && u.workers == [Idle] && u.orders == v.orders && u.t.baselines == v.t.baselines
    ensures |u.t.execs| == |v.t.execs| && u.t.execs[..j.exec] == w.t.execs
    ensures u.t.execs[j.exec].startedAt == started && u.t.execs[j.exec].status == SendStatus(j.outcome.order.result)
    ensures |u.t.signals| == |w.t.signals| && u.t.signals[j.row].status == SendStatus(j.outcome.order.result)
    ensures u.t.signals[j.row].payload == w.t.signals[j.row].payload
    ensures forall k | 0 <= k < |w.t.signals| && k != j.row :: u.t.signals[k] == w.t.signals[k]
  {
    hide Run, Initial, Apply, Decide, Reachable;
    var a := Seeing(NOTHING);
    RecordIs(cfg, v.t, j);
    u := SentStep(cfg, w, v, started, RecordSend, j, FinishExec);
    FinishIs(cfg, u.t, j, a);
    var x := SentStep(cfg, w, u, started, FinishExec, j, FinishSignal);
    assert x.t.execs[j.exec].status == SendStatus(j.outcome.order.result);
    FinishIs(cfg, x.t, j, a);
    AdvanceIs(cfg, x, FinishSignal, j, a);
    PerformIs(x, Decide(cfg, x.t, FinishSignal, j, a));
    ReachableStep(cfg, 1, x, Advance(0, a));
    u := Apply(cfg, x, Advance(0, a));
  }

  lemma SentStep(cfg: Settings, w: World, v: World, started: int, s: Step, j: Job, next: Step) returns (u: World)
    requires TrackSent(cfg, w, v, started, s, j)
    requires Decide(cfg, v.t, s, j, Seeing(NOTHING)).effect.UpdateExec?
    requires Decide(cfg, v.t, s, j, Seeing(NOTHING)).effect.exec == j.exec
    requires Decide(cfg, v.t, s, j, Seeing(NOTHING)).phase == Running(next, j)
    ensures TrackSent(cfg, w, u, started, next, j) && u.t == PerformOn(v.t, Decide(cfg, v.t, s, j, Seeing(NOTHING)).effect)
    ensures u.t.baselines == v.t.baselines
  {
    hide Run, Initial, Apply, Decide, Reachable;
    var a := Seeing(NOTHING);
    AdvanceIs(cfg, v, s, j, a);
    PerformIs(v, Decide(cfg, v.t, s, j, a));
    ReachableStep(cfg, 1, v, Advance(0, a));
    u := Apply(cfg, v, Advance(0, a));
    PerformKeepsTrack(v.t, Decide(cfg, v.t, s, j, a).effect, j.row, j.exec);
    assert u.t.execs[..j.exec] == v.t.execs[..j.exec];
  }

  // ---- the scene ----

  const MIDNIGHT := 20_000 * DAY
  const CFG := Settings(false, true, 1, 1.0, 3.0, 3, 1, 30, true, true, true, 60, map["S" := "S"], (id: string) => id)
  const ACCOUNT := Account(Some("B"), Some(7), 10_000.0)
  const FIRST := Payload("a", MIDNIGHT, "S", Buy, 1.0, Some(90.0), None)
  const SECOND_SIGNAL := Payload("b", MIDNIGHT, "S", Buy, 1.0, Some(90.0), None)
  const DONE := Some(SendResult(Some(10009), NO_RECEIPT))

  function AccountName(): string {
    NameOf(ACCOUNT)
  }

  /** A market and an account that let one lot through. */
  function Market(now: int, brokerNow: int): Observed {
    Observed(now, true, Some(ACCOUNT), AccountKeyFor(ACCOUNT), Some(SymbolInfo(Some(1.0), Some(1.0), Some(100.0), Some(1.0), None)),
             Some(Tick(100.0, 101.0)), Some(brokerNow), 0, Some([]), 10_000.0, Some(-100.0), Sized(1.0), Some(10009))
  }

  lemma AccountIsNamed()
    ensures AccountKeyFor(ACCOUNT) == Some(AccountName()) && AccountName() == "B|7"
  {
    KeyOfKnown(ACCOUNT);
    assert "B"[0] as int !in WHITE_SPACE;
    assert Known(ACCOUNT);
    assert NatText(7) == "7";
  }

  lemma OneLot()
    ensures CalculateVolume(Some(-100.0), 101.0, Some(90.0), 10_000.0, 1.0, 1.0, 100.0, 1.0) == Sized(1.0)
  {
    assert AllowedLoss(10_000.0, 1.0) == 100.0;
    assert WholeSteps(100.0, 100.0, 1.0) == 1;
    assert Times(1, 1.0) == 1.0 && 1.0 * GRID == 100_000_000.0;
    assert RoundHalfEven(100_000_000.0) == 100_000_000;
  }

  lemma MarketIsClean(p: Payload, now: int, brokerNow: int)
    requires p == FIRST || p == SECOND_SIGNAL
    requires MIDNIGHT - 5 * SECOND <= now <= MIDNIGHT + 60 * SECOND
    ensures Clean(CFG, p, Market(now, brokerNow))
  {
    hide CalculateVolume, AccountKeyFor;
    AccountIsNamed();
    OneLot();
    var o := Market(now, brokerNow);
    assert VolumeOf(p, o) == Sized(1.0);
    forall g: Gate
      ensures GateResult(CFG, p, o, g).None?
    {
      MarketPasses(p, now, brokerNow, g);
    }
  }

  lemma MarketPasses(p: Payload, now: int, brokerNow: int, g: Gate)
    requires p == FIRST || p == SECOND_SIGNAL
    requires MIDNIGHT - 5 * SECOND <= now <= MIDNIGHT + 60 * SECOND && AccountKeyFor(ACCOUNT).Some?
    ensures GateResult(CFG, p, Market(now, brokerNow), g).None?
  {
    hide CalculateVolume, AccountKeyFor;
    assert multiset([])[CFG.magic] == 0;
  }

  lemma Submitted(w: World, p: Payload) returns (u: World)
    requires Reachable(CFG, 1, w) && !HasId(w.t.signals, p.id)
    ensures Reachable(CFG, 1, u)
    ensures u == w.(t := w.t.(signals := w.t.signals + [SignalRow(p, None, Pending, 0)]), submits := w.submits + [p])
  {
    hide Reachable, Run, Initial;
    u := Apply(CFG, w, Submit(p));
    ReachableStep(CFG, 1, w, Submit(p));
  }

  lemma Started(w: World) returns (u: World)
    requires Reachable(CFG, 1, w) && w.workers == [Down] && RowsWith(w.t.signals, Processing) == []
    ensures Reachable(CFG, 1, u) && u == w.(workers := [Idle])
  {
    hide Reachable, Run, Initial, Apply, RowsWith;
    StartIs(CFG, w);
    var v := Apply(CFG, w, Start(0));
    ReachableStep(CFG, 1, w, Start(0));
    RecoveryEndsIs(CFG, v);
    u := Apply(CFG, v, Reconcile(0, false, []));
    ReachableStep(CFG, 1, v, Reconcile(0, false, []));
  }

  lemma Empty() returns (w: World)
    ensures Reachable(CFG, 1, w) && w == World(Tables([], [], map[]), [Down], [], 0, [], [], [], [])
  {
    w := Initial(1, 0);
    assert Run(CFG, Initial(1, 0), []) == w;
    assert w.workers == [Down];
  }

  /** Both signals are submitted and the worker is up. */
  lemma Opening() returns (w: World)
    ensures Waiting(CFG, w, 0) && w.orders == [] && w.t.execs == [] && w.t.baselines == map[]
    ensures w.t.signals == [SignalRow(FIRST, None, Pending, 0), SignalRow(SECOND_SIGNAL, None, Pending, 0)]
  {
    hide Reachable, Run, Initial, Apply;
    w := Empty();
    w := Submitted(w, FIRST);
    w := Submitted(w, SECOND_SIGNAL);
    TallyZero(w.t.signals, Processing);
    w := Started(w);
  }

  // ---- a recovered trade that is not counted ----

  /** The order was filled and reported, the process died before it wrote that down, recovery
      found the deal: the signal is RECOVERED_EXECUTED, and the day's count of the account is
      still zero, from any instant on. */
  lemma RecoveredTradeUncounted() returns (w: World)
    ensures Reachable(CFG, 1, w) && |w.orders| == 1 && w.orders[0].filled && Coded(w.orders[0].result, RETCODE_DONE)
    ensures w.orders[0].row < |w.t.signals| && w.t.signals[w.orders[0].row].status == RecoveredExecuted
    ensures forall key, since :: CountTrades(w.t.execs, key, since) == 0
  {
    hide Reachable, Run, Initial, Apply, Clean, CalculateVolume, OrderRequest;
    var w0 := Opening();
    var o := Market(MIDNIGHT, MIDNIGHT);
    MarketIsClean(FIRST, MIDNIGHT, MIDNIGHT);
    var v, j := CleanAttempt(CFG, w0, 0, MIDNIGHT, o, DONE);
    w := DiesAndRecovers(w0, v, j);
    assert w.orders == [j.outcome.order];
  }

  lemma DiesAndRecovers(w0: World, v: World, j: Job) returns (w: World)
    requires TrackSent(CFG, w0, v, MIDNIGHT, RecordSend, j) && w0.t.execs == [] && j.row == 0
    requires forall k | 0 < k < |w0.t.signals| :: w0.t.signals[k].status == Pending
    ensures Reachable(CFG, 1, w) && w.orders == v.orders && 0 < |w.t.signals| && w.t.signals[0].status == RecoveredExecuted
    ensures forall key, since :: CountTrades(w.t.execs, key, since) == 0
  {
    hide Reachable, Run, Initial, Apply, RowsWith, CountTrades;
    OpenRowInProgress(w0, v, j);
    KillIs(CFG, v);
    w := Apply(CFG, v, Kill(0));
    ReachableStep(CFG, 1, v, Kill(0));
    StartIs(CFG, w);
    ReachableStep(CFG, 1, w, Start(0));
    w := Apply(CFG, w, Start(0));
    OnlyFirstStuck(w.t.signals);
    var tag := CFG.tag(w.t.signals[0].payload.id);
    assert [0] + [] == [0];
    ReconcileIs(CFG, w, 0, [], true, [tag]);
    ReachableStep(CFG, 1, w, Reconcile(0, true, [tag]));
    w := Apply(CFG, w, Reconcile(0, true, [tag]));
    forall key, since
      ensures CountTrades(w.t.execs, key, since) == 0
    {
      OneOpenRow(w.t.execs, key, since);
    }
  }

  lemma OpenRowInProgress(w0: World, v: World, j: Job)
    requires TrackSent(CFG, w0, v, MIDNIGHT, RecordSend, j) && w0.t.execs == []
    ensures v.t.signals[j.row].status == Processing && |v.t.execs| == 1 && v.t.execs[0].status == Processing
  {
    hide Run, Initial, Queue, Attempts, Orders, Exposed, Traced;
    var open: nat, events: seq<Event> :| v == Run(CFG, Initial(1, open), events);
    RunIsInFlight(CFG, open, events);
    ReachableIsSafe(CFG, 1, v);
    assert v.workers[0] == Running(RecordSend, j);
    assert AttemptOpen(v, v.workers[0].step, v.workers[0].job);
  }

  lemma OneOpenRow(execs: seq<Execution>, key: string, since: int)
    requires |execs| == 1 && execs[0].status == Processing
    ensures CountTrades(execs, key, since) == 0
  {
    assert execs[..0] == [];
  }

  lemma OnlyFirstStuck(signals: seq<SignalRow>)
    requires signals != [] && signals[0].status == Processing
    requires forall k | 0 < k < |signals| :: signals[k].status == Pending
    ensures RowsWith(signals, Processing) == [0]
  {
    hide RowsWith;
    RowsMeaning(signals);
    AscendingUnique(RowsWith(signals, Processing), [0]);
  }

  lemma RowsMeaning(signals: seq<SignalRow>)
    ensures forall i :: i in RowsWith(signals, Processing) <==> 0 <= i < |signals| && signals[i].status == Processing
    ensures var rows := RowsWith(signals, Processing); forall i, j | 0 <= i < j < |rows| :: rows[i] < rows[j]
  {
  }

  // ---- two trades of one broker day under a cap of one ----

  /** One clock for host and broker, and a cap of one.  The first attempt starts a microsecond
      before midnight and reads the broker's midnight tick; the second follows a second later,
      counts no trade since midnight, and trades too. */
  lemma TwoTradesUnderACapOfOne() returns (w: World)
    ensures CFG.maxTradesPerDay == 1 && Reachable(CFG, 1, w) && |w.orders| == 2 == |w.t.execs|
    ensures w.t.execs[0].startedAt == w.orders[0].seen.now == MIDNIGHT - 1 && w.orders[0].seen.brokerNow == Some(MIDNIGHT)
    ensures w.t.execs[1].startedAt == w.orders[1].seen.now == MIDNIGHT + SECOND
    ensures w.orders[1].seen.brokerNow == Some(MIDNIGHT + SECOND)
    ensures w.orders[0].filled && w.orders[1].filled
    ensures CountOn(Book(w.orders), w.t.execs, AccountName(), MIDNIGHT, Trades) == 2
  {
    hide Reachable, Run, Initial, Apply, Clean, CalculateVolume, OrderRequest, CountTrades, TrackSent;
    var w0 := Opening();
    var o1, o2 := Market(MIDNIGHT - 1, MIDNIGHT), Market(MIDNIGHT + SECOND, MIDNIGHT + SECOND);
    var w1, j1 := TradedFirst(w0, o1);
    var w2, j2 := TradedSecond(w1, o2);
    w := w2;
    TwoOnTheDay(w, j1.outcome.order, j2.outcome.order);
  }

  lemma TradedFirst(w0: World, o: Observed) returns (u: World, j: Job)
    requires Waiting(CFG, w0, 0) && w0.orders == [] && w0.t.execs == [] && w0.t.baselines == map[]
    requires w0.t.signals == [SignalRow(FIRST, None, Pending, 0), SignalRow(SECOND_SIGNAL, None, Pending, 0)]
    requires o == Market(MIDNIGHT - 1, MIDNIGHT)
    ensures j.outcome.Sent? && j.outcome.order == FilledOrder(CFG, j, o, DONE) && j.exec == 0
    ensures Waiting(CFG, u, 1) && u.orders == [j.outcome.order] && |u.t.execs| == 1
    ensures u.t.execs[0].startedAt == MIDNIGHT - 1 && u.t.execs[0].status == Executed
    ensures |u.t.signals| == 2 && u.t.signals[1].payload == SECOND_SIGNAL
    ensures u.t.baselines == map[BaselineKeyOf(o) := 10_000.0]
  {
    hide Reachable, Run, Initial, Apply, Clean, CalculateVolume, OrderRequest;
    MarketIsClean(FIRST, MIDNIGHT - 1, MIDNIGHT);
    var v;
    v, j := CleanAttempt(CFG, w0, 0, MIDNIGHT - 1, o, DONE);
    u := FinishTrade(CFG, w0, v, MIDNIGHT - 1, j);
    assert LeastPending(u.t.signals, 0) == Some(1);
  }

  lemma TradedSecond(w1: World, o: Observed) returns (u: World, j: Job)
    requires Waiting(CFG, w1, 1) && |w1.t.execs| == 1 && w1.t.execs[0].startedAt == MIDNIGHT - 1
    requires |w1.t.signals| == 2 && w1.t.signals[1].payload == SECOND_SIGNAL && w1.t.execs[0].status == Executed
    requires w1.t.baselines == map[BaselineKeyOf(Market(MIDNIGHT - 1, MIDNIGHT)) := 10_000.0]
    requires o == Market(MIDNIGHT + SECOND, MIDNIGHT + SECOND)
    ensures j.outcome.Sent? && j.outcome.order == FilledOrder(CFG, j, o, DONE) && j.exec == 1
    ensures Reachable(CFG, 1, u) && u.orders == w1.orders + [j.outcome.order] && |u.t.execs| == 2 && u.t.execs[0] == w1.t.execs[0]
    ensures u.t.execs[1].startedAt == MIDNIGHT + SECOND && u.t.execs[1].status == Executed
  {
    hide Reachable, Run, Initial, Apply, Clean, CalculateVolume, OrderRequest;
    MarketIsClean(SECOND_SIGNAL, MIDNIGHT + SECOND, MIDNIGHT + SECOND);
    DayStartAndKeyAgree(MIDNIGHT + SECOND, MIDNIGHT);
    assert DayStart(o) == MIDNIGHT;
    assert w1.t.execs[..0] == [];
    assert CountTrades(w1.t.execs, Key(o), DayStart(o)) == 0;
    var v;
    v, j := CleanAttempt(CFG, w1, 1, MIDNIGHT + SECOND, o, DONE);
    u := FinishTrade(CFG, w1, v, MIDNIGHT + SECOND, j);
    assert u.t.execs[0] == u.t.execs[..1][0];
  }

  lemma TwoOnTheDay(w: World, a: Order, b: Order)
    requires w.orders == [a, b] && |w.t.execs| == 2 && a.exec == 0 && b.exec == 1
    requires w.t.execs[0].status == w.t.execs[1].status == Executed
    requires a.seen == Market(MIDNIGHT - 1, MIDNIGHT) && b.seen == Market(MIDNIGHT + SECOND, MIDNIGHT + SECOND)
    ensures CountOn(Book(w.orders), w.t.execs, AccountName(), MIDNIGHT, Trades) == 2
  {
    hide NameOf;
    assert IsMidnightOf(MIDNIGHT, MIDNIGHT) && IsMidnightOf(MIDNIGHT, MIDNIGHT + SECOND);
    var book := Book(w.orders);
    assert book == [EntryOf(a), EntryOf(b)];
    assert book[..1] == [EntryOf(a)] && book[..1][..0] == [];
    assert On(EntryOf(a), w.t.execs, AccountName(), MIDNIGHT, Trades);
    assert On(EntryOf(b), w.t.execs, AccountName(), MIDNIGHT, Trades);
    assert CountOn([EntryOf(a)], w.t.execs, AccountName(), MIDNIGHT, Trades) == 1;
  }
}
