/** The execution service: the pipeline with its early returns, over the database and the
    gateway.  A ghost history of machine events accompanies every database and broker call,
    with the part of the tape that each event heard, so that what is proved of all runs holds
    of these objects and of the answers that the terminal really gave. */
module Service {
  import opened Types
  import opened Risk
  import opened Sizing
  import opened AccountKeys
  import opened Pipeline
  import opened Machine
  import opened Safety
  import opened Certified
  import opened Guarantees
  import opened Effects
  import opened Dialogue
  import opened Progress
  import opened Stages
  import opened Storage
  import opened Gateway

  const MAX_CONNECT_ATTEMPTS := 3

  function Requests(orders: seq<Order>): (r: seq<Request>)
    ensures |r| == |orders|
  {
    if orders == [] then [] else Requests(orders[..|orders| - 1]) + [orders[|orders| - 1].request]
  }

  lemma RequestsAppend(orders: seq<Order>, o: Order)
    ensures Requests(orders + [o]) == Requests(orders) + [o.request]
  {
    assert (orders + [o])[..|orders|] == orders;
  }

  /** Where an attempt began: the tables with its fresh execution row, the broker's log, the
      history and the tape. */
  datatype Origin = Origin(t: Tables, sent: seq<Request>, events: seq<Event>, log: seq<Exchange>)

  /** How an attempt ends: with a status, or with the exception of a missing stop. */
  datatype End = Returned(status: Status) | Raised

  class ExecutionService {
    const cfg: Settings
    const db: Database
    const gateway: MT5Gateway
    const clock: HostClock
    const tape: Tape
    /** The bridge's positions open when the database was created. */
    ghost const open: nat
    ghost var history: seq<Event>
    ghost var heard: seq<seq<Exchange>>
    ghost var world: World

    /** The ghost world is the run of the recorded events, and a log is what they heard. */
    ghost predicate Follows(log: seq<Exchange>)
      reads this
    {
      && world == Run(cfg, Initial(1, open), history)
      && Transcribed(cfg, Initial(1, open), history, heard, log)
    }

    ghost predicate Valid()
      reads this, db, gateway.mt5, tape
    {
      && gateway.mt5.tape == tape && clock.tape == tape
      && db.Valid() && Follows(tape.log) && world.t == db.Contents() && Requests(world.orders) == gateway.mt5.sent
    }

    constructor (cfg: Settings, db: Database, gateway: MT5Gateway, clock: HostClock, ghost open: nat)
      requires db.Valid() && db.Contents() == Tables([], [], map[])
      requires gateway.mt5.tape == clock.tape && clock.tape.log == [] && gateway.mt5.sent == []
      ensures this.cfg == cfg && this.db == db && this.gateway == gateway && this.open == open
      ensures this.clock == clock && this.tape == clock.tape
      ensures Valid() && history == [] && world == Initial(1, open)
    {
      this.cfg, this.db, this.gateway, this.clock, this.tape := cfg, db, gateway, clock, clock.tape;
      this.open, history, heard, world := open, [], [], Initial(1, open);
    }

    // ---- ghost steps ----

    ghost method Record(e: Event, before: seq<Exchange>, said: seq<Exchange>)
      requires Follows(before) && Told(cfg, world, e, said)
      modifies this
      ensures Follows(before + said) && history == old(history) + [e] && world == Apply(cfg, old(world), e)
    {
      hide Run, Apply, Initial, Told, Transcribed;
      RunExtends(cfg, Initial(1, open), history, e);
      TranscriptGrows(cfg, Initial(1, open), history, heard, before, e, said);
      history, heard, world := history + [e], heard + [said], Apply(cfg, world, e);
    }

    // ---- the state of an attempt ----

    ghost predicate At(s: Step, j: Job)
      reads this
    {
      && world.workers == [Running(s, j)]
      && j.row < |world.t.signals| && world.t.signals[j.row].payload == j.payload
    }

    /** Since the origin only this attempt's rows have changed, in the tables `t`. */
    ghost predicate Since(t: Tables, j: Job, g: Origin)
      reads this
    {
      Focused(g.t, t, j.row, j.exec) && g.events <= history && j.row < |g.t.signals| && j.exec < |g.t.execs|
    }

    /** All that the attempt has observed was said since its origin. */
    ghost predicate Attested(s: Step, j: Job, g: Origin, log: seq<Exchange>) {
      g.log <= log && JobHeard(cfg, s, j, log[|g.log|..])
    }

    /** The attempt stands before a step ahead of the send. */
    ghost predicate Ready(s: Step, j: Job, g: Origin)
      reads this, db, gateway.mt5, tape
    {
      && Valid() && At(s, j) && Since(db.Contents(), j, g) && Attested(s, j, g, tape.log)
      && j.outcome.Undecided? && gateway.mt5.sent == g.sent
    }

    /** A stage is over: the next step, or the final updates with the rejecting gate. */
    ghost predicate Passed(s: Step, was: Job, j: Job, g: Origin)
      reads this, db, gateway.mt5, tape
    {
      && j.row == was.row && j.exec == was.exec && j.payload == was.payload
      && if j.outcome.Undecided? then Ready(s, j, g) else j.outcome.Stopped? && Rejected(j, g)
    }

    ghost predicate Rejected(j: Job, g: Origin)
      reads this, db, gateway.mt5, tape
    {
      && Valid() && At(FinishExec, j) && Since(db.Contents(), j, g) && Attested(FinishExec, j, g, tape.log)
      && j.outcome.Stopped? && Rejection(j.outcome.status) && gateway.mt5.sent == g.sent
    }

    /** In the middle of a step: the machine stands where it stood when `before` was on the
        tape, and the attempt has heard what is on it since. */
    ghost predicate Amid(s: Step, j: Job, g: Origin, before: seq<Exchange>)
      reads this, tape
    {
      && Follows(before) && before <= tape.log && At(s, j) && Since(world.t, j, g) && Attested(s, j, g, before)
    }

    ghost function Said(before: seq<Exchange>): seq<Exchange>
      reads tape
    {
      if |before| <= |tape.log| then tape.log[|before|..] else []
    }

    /** The machine takes the step that the database and the terminal have just taken. */
    ghost method Take(s: Step, j: Job, a: Answer, m: Move, g: Origin, before: seq<Exchange>)
      requires gateway.mt5.tape == tape && clock.tape == tape
      requires Amid(s, j, g, before) && OutcomeOk(s, j.outcome) && StepTold(cfg, s, j, a, Said(before))
      requires db.Valid() && m == Decide(cfg, world.t, s, j, a) && OwnEffect(m.effect, j.row, j.exec)
      requires db.Contents() == PerformOn(world.t, m.effect)
      requires gateway.mt5.sent == Requests(world.orders) + if m.effect.SendOrder? then [m.effect.order.request] else []
      modifies this
      ensures Valid() && world.workers == [m.phase] && Since(db.Contents(), j, g)
      ensures m.phase.Running? ==> Attested(m.phase.step, m.phase.job, g, tape.log)
      ensures |world.t.signals| == |old(world.t).signals| && world.t.signals[j.row].payload == j.payload
      ensures world.orders == old(world.orders) + if m.effect.SendOrder? then [m.effect.order] else []
      ensures g.log <= tape.log
    {
      hide Run, Apply, Initial, UniqueIds, Requests, Decide, StepTold, JobHeard, Transcribed, Focused;
      ghost var said := Said(before);
      AdvanceIs(cfg, world, s, j, a);
      PerformIs(world, m);
      EffectStaysFocused(g.t, world.t, m.effect, j.row, j.exec);
      DecideHeard(cfg, world.t, s, j, a, before[|g.log|..], said);
      assert tape.log == before + said && tape.log[|g.log|..] == before[|g.log|..] + said;
      if m.effect.SendOrder? {
        RequestsAppend(world.orders, m.effect.order);
      }
      Record(Advance(0, a), before, said);
    }

    /** An early return: the stage's tests so far passed and this one gives a status. */
    method Reject(
      ghost s: Step, ghost j: Job, ghost a: Answer, ghost x: Slice, r: Job, gate: Gate, status: Status,
      ghost g: Origin, ghost before: seq<Exchange>)
      returns (next: Job)
      requires gateway.mt5.tape == tape && clock.tape == tape
      requires Amid(s, j, g, before) && j.outcome.Undecided? && BeforeSend(s) && StepTold(cfg, s, j, a, Said(before))
      requires db.Valid() && db.Contents() == world.t && Requests(world.orders) == gateway.mt5.sent == g.sent
      requires r == x.job && r.row == j.row && r.exec == j.exec && r.payload == j.payload
      requires WellFormed(x) && Decide(cfg, world.t, s, j, a) == Pass(cfg, x)
      requires x.from <= Rank(gate) < x.until && PassedTo(cfg, x, Rank(gate))
      requires GateResult(cfg, r.payload, r.seen, gate) == Some(status)
      modifies this
      ensures Rejected(next, g) && next == r.(outcome := Stopped(gate, status))
    {
      hide Run, Apply, Initial, UniqueIds, Requests, Decide, Pass, GateResult, StepTold, JobHeard, Transcribed;
      StopsHere(cfg, x, gate, status);
      GateStatusIsRejection(cfg, r.payload, r.seen, gate);
      next := r.(outcome := Stopped(gate, status));
      Take(s, j, a, Move(NoEffect, Running(FinishExec, next)), g, before);
    }

    /** All tests of the stage passed, and the database holds what the stage records. */
    ghost method Accept(s: Step, j: Job, a: Answer, x: Slice, g: Origin, before: seq<Exchange>)
      requires gateway.mt5.tape == tape && clock.tape == tape
      requires Amid(s, j, g, before) && j.outcome.Undecided? && BeforeSend(s) && StepTold(cfg, s, j, a, Said(before))
      requires db.Valid() && Requests(world.orders) == gateway.mt5.sent == g.sent
      requires WellFormed(x) && Decide(cfg, world.t, s, j, a) == Pass(cfg, x) && PassedTo(cfg, x, x.until)
      requires x.job.outcome.Undecided? && x.job.row == j.row && x.job.exec == j.exec && x.job.payload == j.payload
      requires !x.effect.SendOrder? && OwnEffect(x.effect, j.row, j.exec)
      requires db.Contents() == PerformOn(world.t, x.effect)
      modifies this
      ensures Ready(x.next, x.job, g)
    {
      hide Run, Apply, Initial, UniqueIds, Requests, Decide, Pass, GateResult, StepTold, JobHeard, Transcribed;
      PassesAll(cfg, x);
      Take(s, j, a, Move(x.effect, Running(x.next, x.job)), g, before);
    }

    // ---- the stages ----

    /** Freshness, action and symbol mapping; the mapped symbol goes into the execution row. */
    method CheckIntake(j: Job, ghost g: Origin) returns (next: Job)
      requires Ready(Admit, j, g)
      modifies this, tape, db`executions
      ensures Passed(Normalize, j, next, g)
      ensures old(tape.log) <= tape.log && StepTold(cfg, Admit, j, Seeing(next.seen), Said(old(tape.log)))
    {
      hide Run, Apply, Initial, UniqueIds, Requests, Decide, Pass, Focused, JobHeard, Transcribed;
      ghost var before := tape.log;
      var p := j.payload;
      var now := clock.Now();
      var r := j.(seen := j.seen.(now := now));
      ghost var a, x := Seeing(NOTHING.(now := now)), AdmitSlice(cfg, j, now);
      AdmitIs(cfg, world.t, j, now);
      var freshness := CheckFreshness(p.timestamp, cfg.maxSignalAgeSeconds, now);
      if freshness.Some? {
        next := Reject(Admit, j, a, x, r, Fresh, freshness.value, g, before);
        return;
      }
      PassOne(cfg, x, Fresh);
      if p.action == Buy && !cfg.allowMarketBuy {
        next := Reject(Admit, j, a, x, r, ActionEnabled, RejectedRisk, g, before);
        return;
      }
      if p.action == Sell && !cfg.allowMarketSell {
        next := Reject(Admit, j, a, x, r, ActionEnabled, RejectedRisk, g, before);
        return;
      }
      PassOne(cfg, x, ActionEnabled);
      if p.symbol !in cfg.symbolMap {
        next := Reject(Admit, j, a, x, r, SymbolMapped, RejectedSymbol, g, before);
        return;
      }
      PassOne(cfg, x, SymbolMapped);
      db.UpdateExecution(j.exec, SymbolField(cfg.symbolMap[p.symbol]));
      Accept(Admit, j, a, x, g, before);
      next := r;
    }

    /** The resolved symbol is stored at once, before later steps can fail. */
    method StoreMapped(j: Job, ghost g: Origin)
      requires Ready(Normalize, j, g)
      modifies this, db`signals
      ensures Ready(Identify, j, g)
    {
      hide Run, Apply, Initial, UniqueIds, Requests, Decide, Pass, Focused, JobHeard, Transcribed;
      ghost var before := db.signals;
      db.SetSymbolNormalized(j.payload.id, MappedSymbol(cfg, j.payload));
      ByIdIsByRow(before, db.signals, j.row, before[j.row].(normalized := Some(MappedSymbol(cfg, j.payload))));
      NormalizeIs(cfg, world.t, j);
      ghost var m := Move(StoreSymbol(j.row, MappedSymbol(cfg, j.payload)), Running(Identify, j));
      Take(Normalize, j, Seeing(NOTHING), m, g, tape.log);
    }

    /** At most three tries. */
    method TryToConnect() returns (ok: bool)
      requires gateway.mt5.tape == tape
      modifies gateway`connected, tape
      ensures ok ==> gateway.available
      ensures !gateway.available ==> tape.log == old(tape.log)
      ensures gateway.available ==>
        gateway.connected == ok && old(tape.log) <= tape.log && Tried(Said(old(tape.log)), ok)
    {
      var attempt := 1;
      while attempt <= MAX_CONNECT_ATTEMPTS
        invariant 1 <= attempt <= MAX_CONNECT_ATTEMPTS + 1
        invariant attempt > 1 && gateway.available ==> !gateway.connected
        invariant tape.log == old(tape.log) + Failures(if gateway.available then attempt - 1 else 0)
      {
        TriesEnd(attempt - 1);
        ok := gateway.Initialize();
        if ok {
          assert Said(old(tape.log)) == Failures(attempt - 1) + [InitializeAsked(true)];
          return true;
        }
        attempt := attempt + 1;
      }
      ok := false;
      TriesEnd(0);
      assert gateway.available ==> Said(old(tape.log)) == Failures(3);
    }

    /** No try while the cached connection still answers. */
    method EnsureConnected() returns (ok: bool)
      requires gateway.mt5.tape == tape
      modifies gateway`connected, tape
      ensures old(tape.log) <= tape.log
      ensures EnsuredConnection(gateway.available, old(gateway.connected), Said(old(tape.log)), ok)
      ensures ok ==> gateway.available && gateway.connected
      ensures !ok && gateway.available ==> !gateway.connected
    {
      hide Tried;
      ghost var cached := gateway.connected;
      var live := gateway.Connected();
      if live {
        return true;
      }
      ghost var probe := Said(old(tape.log));
      assert gateway.available && cached ==> probe == [AccountAsked(None)];
      ghost var probed := tape.log;
      ok := TryToConnect();
      assert Said(old(tape.log)) == probe + Said(probed);
    }

    /** Connection and account as one exchange. */
    method AskAccount() returns (connected: bool, account: Option<Account>)
      requires gateway.mt5.tape == tape
      modifies gateway`connected, tape
      ensures old(tape.log) <= tape.log && (connected ==> gateway.available)
      ensures Identification(Said(old(tape.log)), connected, account)
    {
      hide Connects, EnsuredConnection;
      ghost var cached := gateway.connected;
      connected := EnsureConnected();
      ghost var dial := Said(old(tape.log));
      EnsuredConnects(gateway.available, cached, dial, connected);
      account := None;
      if connected {
        account := gateway.AccountInfo();
        assert Said(old(tape.log)) == dial + [AccountAsked(account)];
        assert (dial + [AccountAsked(account)])[..|dial|] == dial;
      }
    }

    /** Connection and account identity; the account key goes into the execution row. */
    method IdentifyAccount(j: Job, ghost g: Origin) returns (next: Job)
      requires Ready(Identify, j, g)
      modifies this, tape, db`executions, gateway`connected
      ensures Passed(Quote, j, next, g)
      ensures next.outcome.Undecided? ==> gateway.available
      ensures next.outcome.Undecided? ==>
        next.seen.account.Some? && Known(next.seen.account.value) && next.seen.key == Some(NameOf(next.seen.account.value))
      ensures old(tape.log) <= tape.log && StepTold(cfg, Identify, j, Seeing(next.seen), Said(old(tape.log)))
    {
      hide Run, Apply, Initial, UniqueIds, Requests, Decide, Pass, Focused, JobHeard, Transcribed, AccountKeyFor, Identification;
      ghost var before := tape.log;
      var connected, account := AskAccount();
      var r := j.(seen := Identified(j.seen, NOTHING.(connected := connected, account := account)));
      ghost var a, x := Seeing(NOTHING.(connected := connected, account := account)), IdentifySlice(j, connected, account);
      IdentifyIs(cfg, world.t, j, connected, account);
      if !connected {
        next := Reject(Identify, j, a, x, r, Gate.Connected, FailedMt5Unavailable, g, before);
        return;
      }
      PassOne(cfg, x, Gate.Connected);
      if account.None? {
        next := Reject(Identify, j, a, x, r, AccountKnown, FailedMt5Unavailable, g, before);
        return;
      }
      PassOne(cfg, x, AccountKnown);
      var key := AccountKeyFor(account.value);
      if key.None? {
        next := Reject(Identify, j, a, x, r, AccountNamed, FailedMt5Unavailable, g, before);
        return;
      }
      PassOne(cfg, x, AccountNamed);
      KeyOfKnown(account.value);
      db.UpdateExecution(j.exec, AccountField(key.value));
      Accept(Identify, j, a, x, g, before);
      next := r;
    }

    /** Symbol and tick as one exchange: no tick is asked of a symbol that cannot be used. */
    method AskQuote(symbol: string) returns (info: Option<SymbolInfo>, tick: Option<Tick>)
      requires gateway.mt5.tape == tape && gateway.available
      modifies tape
      ensures old(tape.log) <= tape.log
      ensures Quotation(symbol, Said(old(tape.log)), info, tick)
    {
      hide EnsuredSymbol;
      info := gateway.EnsureSymbol(symbol);
      ghost var dial := Said(old(tape.log));
      tick := None;
      if info.Some? {
        var answer := gateway.SymbolInfoTick(symbol);
        if answer.Some? {
          tick := Some(answer.value.tick);
        }
        assert Said(old(tape.log)) == dial + [TickAsked(symbol, answer)];
        assert (dial + [TickAsked(symbol, answer)])[..|dial|] == dial;
        assert (dial + [TickAsked(symbol, answer)])[|dial|..] == [TickAsked(symbol, answer)];
      }
    }

    /** Symbol and tick; the entry price goes into the execution row. */
    method QuoteSymbol(j: Job, ghost g: Origin) returns (next: Job)
      requires Ready(Quote, j, g) && gateway.available
      modifies this, tape, db`executions
      ensures Passed(Guard, j, next, g)
      ensures old(tape.log) <= tape.log && StepTold(cfg, Quote, j, Seeing(next.seen), Said(old(tape.log)))
    {
      hide Run, Apply, Initial, UniqueIds, Requests, Decide, Pass, Focused, JobHeard, Transcribed, Quotation;
      ghost var before := tape.log;
      var symbol := MappedSymbol(cfg, j.payload);
      var info, tick := AskQuote(symbol);
      var r := j.(seen := j.seen.(info := info, tick := tick));
      ghost var a, x := Seeing(NOTHING.(info := info, tick := tick)), QuoteSlice(j, info, tick);
      QuoteIs(cfg, world.t, j, info, tick);
      if info.None? {
        next := Reject(Quote, j, a, x, r, SymbolUsable, RejectedSymbolUnavailable, g, before);
        return;
      }
      PassOne(cfg, x, SymbolUsable);
      if tick.None? {
        next := Reject(Quote, j, a, x, r, TickKnown, FailedMt5Unavailable, g, before);
        return;
      }
      PassOne(cfg, x, TickKnown);
      var entryPrice := if j.payload.action == Buy then tick.value.ask else tick.value.bid;
      db.UpdateExecution(j.exec, EntryField(entryPrice));
      Accept(Quote, j, a, x, g, before);
      next := r;
    }

    /** Broker time, stop loss and spread. */
    method CheckMarket(j: Job, ghost g: Origin) returns (next: Job)
      requires Ready(Guard, j, g) && gateway.available
      modifies this, tape
      ensures Passed(CountDay, j, next, g)
      ensures old(tape.log) <= tape.log && StepTold(cfg, Guard, j, Seeing(next.seen), Said(old(tape.log)))
    {
      hide Run, Apply, Initial, UniqueIds, Requests, Decide, Pass, Focused, JobHeard, Transcribed, TimeGiven, Known;
      ghost var before := tape.log;
      var p := j.payload;
      var brokerNow := gateway.ServerTime(MappedSymbol(cfg, p));
      var r := j.(seen := j.seen.(brokerNow := brokerNow));
      ghost var a, x := Seeing(NOTHING.(brokerNow := brokerNow)), GuardSlice(j, brokerNow);
      GuardIs(cfg, world.t, j, brokerNow);
      if brokerNow.None? {
        next := Reject(Guard, j, a, x, r, BrokerTimeKnown, FailedBrokerTimeUnknown, g, before);
        return;
      }
      PassOne(cfg, x, BrokerTimeKnown);
      var stop := CheckStopLoss(p.action, p.stopLoss, EntryPrice(p, j.seen), cfg.requireStopLoss);
      if stop.Some? {
        next := Reject(Guard, j, a, x, r, StopLossValid, stop.value, g, before);
        return;
      }
      PassOne(cfg, x, StopLossValid);
      var tick := j.seen.tick.GetOr(Tick(0.0, 0.0));
      var spread := CheckSpread(tick.bid, tick.ask, Info(j.seen).point.GetOr(0.0), cfg.maxSpreadPoints);
      if spread.Some? {
        next := Reject(Guard, j, a, x, r, SpreadValid, spread.value, g, before);
        return;
      }
      PassOne(cfg, x, SpreadValid);
      Accept(Guard, j, a, x, g, before);
      next := r;
    }

    /** What an attempt knows once the broker's time is behind it. */
    lemma ReadyIsLocated(s: Step, j: Job, g: Origin)
      requires Ready(s, j, g) && 9 <= GatesBefore(s) < 19
      ensures Located(j.seen) && j.seen.key == AccountKey(j.seen)
    {
      hide Run, Apply, Initial, UniqueIds, Requests, Decide, Failing, Focused, JobHeard, Transcribed;
      RunIsCertified(cfg, 1, open, history);
      assert AllCertified(cfg, world);
      assert world.workers[0] == Running(s, j);
      assert JobCertified(cfg, world.workers[0].step, world.workers[0].job);
      PassedLocates(cfg, j.payload, j.seen, GatesBefore(s));
    }

    /** Trades of this account since the broker's midnight. */
    method CheckTradeCount(j: Job, ghost g: Origin) returns (next: Job)
      requires Ready(CountDay, j, g)
      modifies this
      ensures Passed(CountPositions, j, next, g)
      ensures Located(j.seen)
      ensures exists d ::
        && IsMidnightOf(d, j.seen.brokerNow.value)
        && next.seen == j.seen.(trades := CountTrades(old(db.executions), NameOf(j.seen.account.value), d))
      ensures next.outcome.Stopped? <==> next.seen.trades >= cfg.maxTradesPerDay
    {
      hide Run, Apply, Initial, UniqueIds, Requests, Decide, Pass, Focused, JobHeard, Transcribed;
      ReadyIsLocated(CountDay, j, g);
      LocatedIs(j.seen);
      assert IsMidnightOf(DayStart(j.seen), j.seen.brokerNow.value);
      var trades := db.CountExecutedTradesSince(Key(j.seen), DayStart(j.seen));
      var r := j.(seen := j.seen.(trades := trades));
      ghost var a, x := Seeing(NOTHING), CountSlice(j, world.t);
      CountIs(cfg, world.t, j);
      var limit := CheckDailyTradeLimit(trades, cfg.maxTradesPerDay);
      if limit.Some? {
        next := Reject(CountDay, j, a, x, r, TradesLeft, limit.value, g, tape.log);
        return;
      }
      PassOne(cfg, x, TradesLeft);
      Accept(CountDay, j, a, x, g, tape.log);
      next := r;
    }

    method CountMagic(positions: seq<int>) returns (count: nat)
      ensures count == multiset(positions)[cfg.magic]
    {
      count := 0;
      var n := 0;
      while n < |positions|
        invariant n <= |positions| && count == multiset(positions[..n])[cfg.magic]
      {
        assert positions[..n + 1] == positions[..n] + [positions[n]];
        if positions[n] == cfg.magic {
          count := count + 1;
        }
        n := n + 1;
      }
      assert positions[..n] == positions;
    }

    /** Open positions; a query that fails is rejected and never taken for none. */
    method CheckPositions(j: Job, ghost g: Origin) returns (next: Job)
      requires Ready(CountPositions, j, g) && gateway.available
      modifies this, tape
      ensures Passed(ReadBaseline, j, next, g)
      ensures tape.log == old(tape.log) + [PositionsAsked(next.seen.positions)]
      ensures next.seen.positions.None? ==> next.outcome == Stopped(PositionsKnown, FailedMt5StateUnknown)
    {
      hide Run, Apply, Initial, UniqueIds, Requests, Decide, Pass, Focused, JobHeard, Transcribed;
      ghost var before := tape.log;
      var positions := gateway.PositionsGet();
      var r := j.(seen := j.seen.(positions := positions));
      ghost var a, x := Seeing(NOTHING.(positions := positions)), PositionsSlice(j, positions);
      PositionsIs(cfg, world.t, j, positions);
      if positions.None? {
        next := Reject(CountPositions, j, a, x, r, PositionsKnown, FailedMt5StateUnknown, g, before);
        return;
      }
      PassOne(cfg, x, PositionsKnown);
      var count := CountMagic(positions.value);
      var limit := CheckPositionLimit(count, cfg.maxOpenPositions);
      if limit.Some? {
        next := Reject(CountPositions, j, a, x, r, PositionsLeft, limit.value, g, before);
        return;
      }
      PassOne(cfg, x, PositionsLeft);
      Accept(CountPositions, j, a, x, g, before);
      next := r;
    }

    /** The day's baseline; the first equity of the day becomes it. */
    method LoadBaseline(j: Job, ghost g: Origin) returns (next: Job)
      requires Ready(ReadBaseline, j, g)
      modifies this, db`baselines
      ensures Ready(Size, next, g) && next.row == j.row && next.exec == j.exec && next.payload == j.payload
      ensures Located(j.seen) && DailyKey(j.seen) in db.baselines
      ensures next.seen == j.seen.(baseline := db.baselines[DailyKey(j.seen)])
      ensures db.baselines == if DailyKey(j.seen) in old(db.baselines) then old(db.baselines)
                              else old(db.baselines)[DailyKey(j.seen) := j.seen.account.value.equity]
    {
      hide Run, Apply, Initial, UniqueIds, Requests, Decide, Pass, Focused, JobHeard, Transcribed;
      ReadyIsLocated(ReadBaseline, j, g);
      LocatedIs(j.seen);
      var key := BaselineKeyOf(j.seen);
      var stored := db.GetDailyLossBaseline(key);
      BaselineIs(cfg, world.t, j);
      if stored.Some? {
        next := j.(seen := j.seen.(baseline := stored.value));
        Take(ReadBaseline, j, Seeing(NOTHING), Move(NoEffect, Running(Size, next)), g, tape.log);
      } else {
        Take(ReadBaseline, j, Seeing(NOTHING), Move(NoEffect, Running(WriteBaseline, j)), g, tape.log);
        next := StoreFirstBaseline(j, g);
      }
    }

    method StoreFirstBaseline(j: Job, ghost g: Origin) returns (next: Job)
      requires Ready(WriteBaseline, j, g) && BaselineKeyOf(j.seen) !in db.baselines
      modifies this, db`baselines
      ensures Ready(Size, next, g) && next == j.(seen := j.seen.(baseline := Equity(j.seen)))
      ensures db.baselines == old(db.baselines)[BaselineKeyOf(j.seen) := Equity(j.seen)]
    {
      hide Run, Apply, Initial, UniqueIds, Requests, Decide, Pass, Focused, JobHeard, Transcribed;
      var key := BaselineKeyOf(j.seen);
      db.SetDailyLossBaseline(key, Equity(j.seen));
      next := j.(seen := j.seen.(baseline := Equity(j.seen)));
      BaselineIs(cfg, world.t, j);
      Take(WriteBaseline, j, Seeing(NOTHING), Move(StoreBaseline(key, Equity(j.seen)), Running(Size, next)), g, tape.log);
    }

    /** A sizing that raised: the machine is idle and the attempt's rows stay in progress. */
    ghost predicate Abandoned(j: Job, g: Origin)
      reads this, db, gateway.mt5, tape
    {
      && Valid() && world.workers == [Idle] && Since(db.Contents(), j, g) && gateway.mt5.sent == g.sent
      && j.payload.stopLoss.None? && !cfg.requireStopLoss
    }

    /** Daily loss, risk percentage and volume.  Without a stop the calculation raises. */
    method SizePosition(j: Job, ghost g: Origin) returns (next: Job, raised: bool)
      requires Ready(Size, j, g) && gateway.available
      modifies this, tape, db`executions
      ensures raised ==> Abandoned(j, g)
      ensures !raised ==> Passed(Check, j, next, g)
      ensures !raised ==> old(tape.log) <= tape.log && StepTold(cfg, Size, j, Seeing(next.seen), Said(old(tape.log)))
    {
      hide Run, Apply, Initial, UniqueIds, Requests, Decide, Pass, Focused, JobHeard, Transcribed, CalculateVolume;
      var p := j.payload;
      raised := false;
      var r := j.(seen := Priced(p, j.seen, NOTHING));
      ghost var a, x := Seeing(NOTHING.(profit := None)), SizeSlice(j, None);
      SizeIs(cfg, world.t, j, None);
      var loss := CheckDailyLoss(Equity(j.seen), j.seen.baseline, cfg.maxDailyLossPercent);
      if loss.Some? {
        assert GateResult(cfg, p, r.seen, LossWithin).Some? && GateResult(cfg, p, j.seen, LossWithin).Some?;
        next := Reject(Size, j, a, x, r, LossWithin, loss.value, g, tape.log);
        return;
      }
      PassOne(cfg, x, LossWithin);
      var risk := CheckRiskPercent(p.riskPercent, cfg.maxRiskPercent);
      if risk.Some? {
        assert GateResult(cfg, p, r.seen, RiskWithin).Some? && GateResult(cfg, p, j.seen, RiskWithin).Some?;
        next := Reject(Size, j, a, x, r, RiskWithin, risk.value, g, tape.log);
        return;
      }
      PassOne(cfg, x, RiskWithin);
      next, raised := FindVolume(j, g);
    }

    /** The sizing gates before the volume depend on no answer of this stage. */
    lemma SameSizing(j: Job, profit: Option<real>)
      requires PassedTo(cfg, SizeSlice(j, None), 16)
      ensures PassedTo(cfg, SizeSlice(j, profit), 16)
      ensures GateResult(cfg, j.payload, j.seen, LossWithin).None? && GateResult(cfg, j.payload, j.seen, RiskWithin).None?
    {
      hide CalculateVolume;
      var x, y := SizeSlice(j, None), SizeSlice(j, profit);
      assert Rank(LossWithin) == 14 && Rank(RiskWithin) == 15;
      assert GateResult(cfg, x.job.payload, x.job.seen, LossWithin).None?;
      assert GateResult(cfg, x.job.payload, x.job.seen, RiskWithin).None?;
      forall h: Gate | 14 <= Rank(h) < 16
        ensures GateResult(cfg, y.job.payload, y.job.seen, h).None?
      {
        assert GateAt(Rank(h)) == h;
        assert h == LossWithin || h == RiskWithin;
      }
    }

    /** An attempt without a stop gets to sizing only when none is required. */
    lemma StopNotRequired(j: Job, g: Origin)
      requires Ready(Size, j, g) && j.payload.stopLoss.None?
      ensures !cfg.requireStopLoss
    {
      hide Run, Apply, Initial, UniqueIds, Requests, Decide, Failing, Consistent, Focused, JobHeard, Transcribed;
      RunIsCertified(cfg, 1, open, history);
      assert AllCertified(cfg, world);
      assert world.workers[0] == Running(Size, j);
      assert JobCertified(cfg, world.workers[0].step, world.workers[0].job);
      StopGatePassed(cfg, j);
    }

    /** The loss of one lot, asked for only with sane prices. */
    method AskProfit(j: Job) returns (profit: Option<real>)
      requires gateway.mt5.tape == tape && gateway.available && PassedTo(cfg, SizeSlice(j, None), 16)
      modifies tape
      ensures old(tape.log) <= tape.log && StepTold(cfg, Size, j, Seeing(NOTHING.(profit := profit)), Said(old(tape.log)))
    {
      hide CalculateVolume, PassedTo, GateResult;
      var p := j.payload;
      var entryPrice := EntryPrice(p, j.seen);
      SameSizing(j, None);
      profit := None;
      if entryPrice > 0.0 && p.stopLoss.Some? && p.stopLoss.value > 0.0 {
        profit := gateway.OrderCalcProfit(p.action, MappedSymbol(cfg, p), entryPrice, p.stopLoss.value);
      }
    }

    method FindVolume(j: Job, ghost g: Origin) returns (next: Job, raised: bool)
      requires Ready(Size, j, g) && gateway.available && PassedTo(cfg, SizeSlice(j, None), 16)
      modifies this, tape, db`executions
      ensures raised ==> Abandoned(j, g)
      ensures !raised ==> Passed(Check, j, next, g)
      ensures !raised ==> old(tape.log) <= tape.log && StepTold(cfg, Size, j, Seeing(next.seen), Said(old(tape.log)))
    {
      hide Run, Apply, Initial, UniqueIds, Requests, Decide, Pass, Focused, JobHeard, Transcribed, PassedTo, AsksProfit, VolumeOf;
      ghost var before := tape.log;
      if j.payload.stopLoss.None? {
        StopNotRequired(j, g);
      }
      var profit := AskProfit(j);
      var r := j.(seen := Priced(j.payload, j.seen, NOTHING.(profit := profit)));
      ghost var a, x := Seeing(NOTHING.(profit := profit)), SizeSlice(j, profit);
      SizeIs(cfg, world.t, j, profit);
      SameSizing(j, profit);
      RaisedWithoutStop(j.payload, j.seen.(profit := profit));
      raised := r.seen.sized.Raised?;
      next := r;
      if raised {
        Take(Size, j, a, Move(NoEffect, Idle), g, before);
      } else if r.seen.sized.BelowMinimum? {
        next := Reject(Size, j, a, x, r, VolumeFound, RejectedVolumeBelowMinimum, g, before);
      } else if r.seen.sized.Unusable? {
        next := Reject(Size, j, a, x, r, VolumeFound, RejectedVolume, g, before);
      } else {
        PassOne(cfg, x, VolumeFound);
        db.UpdateExecution(j.exec, VolumeField(PlannedVolume(r.seen)));
        Accept(Size, j, a, x, g, before);
      }
    }

    /** The request is filled in field by field; a missing stop or target leaves its key out. */
    method BuildOrderRequest(p: Payload, o: Observed) returns (request: Request)
      ensures request == OrderRequest(cfg, p, o)
      ensures o.info.Some? ==> FillingAllowed(o.info.value.fillingMode, request.filling)
    {
      var mode := Info(o).fillingMode;
      var filling := ReturnRest;
      if mode.None? {
        filling := ImmediateOrCancel;
      } else if mode.value % 2 == 1 {
        filling := FillOrKill;
      } else if mode.value / 2 % 2 == 1 {
        filling := ImmediateOrCancel;
      }
      request := Request(MappedSymbol(cfg, p), PlannedVolume(o), p.action, EntryPrice(p, o), DEVIATION,
                         cfg.magic, cfg.tag(p.id), filling, None, None);
      if p.stopLoss.Some? {
        request := request.(sl := p.stopLoss);
      }
      if p.takeProfit.Some? {
        request := request.(tp := p.takeProfit);
      }
    }

    /** The broker is asked to check the very request that will be sent, and its code, whatever
        it is, goes into the execution row. */
    method CheckOrder(j: Job, ghost g: Origin) returns (next: Job, request: Request, ghost answer: Option<Option<int>>)
      requires Ready(Check, j, g) && gateway.available
      modifies this, tape, db`executions
      ensures Ready(Send, next, g) && next.row == j.row && next.exec == j.exec && next.payload == j.payload
      ensures request == OrderRequest(cfg, next.payload, next.seen)
      ensures tape.log == old(tape.log) + [CheckAsked(request, answer)] && next.seen.check == answer.GetOr(None)
    {
      hide Run, Apply, Initial, UniqueIds, Requests, Decide, Pass, Focused, JobHeard, Transcribed, OrderRequest;
      ghost var before := tape.log;
      request := BuildOrderRequest(j.payload, j.seen);
      var checked := gateway.OrderCheck(request);
      answer := checked;
      var code := checked.GetOr(None);
      next := j.(seen := j.seen.(check := code));
      CheckIs(cfg, world.t, j, code);
      ghost var inquiry := Inquiry(j.row, j.exec, OrderRequest(cfg, j.payload, j.seen), code);
      Take(Check, j, Seeing(NOTHING.(check := code)), Move(AskCheck(inquiry), Running(RecordCheck, next)), g, before);
      SameRequest(j, code);
      RecordCode(next, g);
    }

    lemma SameRequest(j: Job, code: Option<int>)
      ensures OrderRequest(cfg, j.payload, j.seen.(check := code)) == OrderRequest(cfg, j.payload, j.seen)
    {
    }

    method RecordCode(j: Job, ghost g: Origin)
      requires Ready(RecordCheck, j, g)
      modifies this, db`executions
      ensures Ready(Send, j, g)
    {
      hide Run, Apply, Initial, UniqueIds, Requests, Decide, Pass, Focused, JobHeard, Transcribed, OrderRequest;
      db.UpdateExecution(j.exec, CheckField(j.seen.check));
      CheckIs(cfg, world.t, j, j.seen.check);
      Take(RecordCheck, j, Seeing(NOTHING), Move(UpdateExec(j.exec, CheckField(j.seen.check)), Running(Send, j)), g, tape.log);
    }

    ghost predicate Cleared(j: Job) {
      PassedTo(cfg, SendSlice(cfg, j, Sending(None, false, false)), 19)
    }

    /** The last tests before the irreversible boundary: a failed check and a dry run stop. */
    method CheckLive(j: Job, ghost g: Origin) returns (next: Job)
      requires Ready(Send, j, g)
      modifies this
      ensures Passed(Send, j, next, g) && next.seen == j.seen
      ensures next.outcome.Undecided? ==> next == j && Cleared(j)
    {
      hide Run, Apply, Initial, UniqueIds, Requests, Decide, Pass, Focused, JobHeard, Transcribed;
      ghost var a := Sending(None, false, false);
      ghost var x := SendSlice(cfg, j, a);
      if j.seen.check.None? || (j.seen.check != Some(0) && j.seen.check != Some(RETCODE_DONE)) {
        SendStops(cfg, world.t, j, a, CheckPassed, RejectedOrderCheck);
        next := Reject(Send, j, a, x, j, CheckPassed, RejectedOrderCheck, g, tape.log);
        return;
      }
      PassOne(cfg, x, CheckPassed);
      if cfg.dryRun || !cfg.LiveExecutionAllowed() {
        SendStops(cfg, world.t, j, a, LiveAllowed, DryRunApproved);
        next := Reject(Send, j, a, x, j, LiveAllowed, DryRunApproved, g, tape.log);
        return;
      }
      PassOne(cfg, x, LiveAllowed);
      next := j;
    }

    /** An order is out: it is the last request in the terminal's log, and what the attempt
        remembers of its result is what the terminal answered. */
    ghost predicate Dispatched(s: Step, j: Job, g: Origin)
      reads this, db, gateway.mt5, tape
    {
      && Valid() && At(s, j) && Since(db.Contents(), j, g) && Attested(s, j, g, tape.log)
      && j.outcome.Sent? && j.outcome.order.request == OrderRequest(cfg, j.payload, j.seen)
      && gateway.mt5.sent == g.sent + [j.outcome.order.request]
    }

    /** One request goes out.  What really happened to the order only the ghost state knows. */
    method Transmit(j: Job, request: Request, ghost g: Origin) returns (result: Option<SendResult>, ghost next: Job)
      requires Ready(Send, j, g) && Cleared(j) && gateway.available && request == OrderRequest(cfg, j.payload, j.seen)
      modifies this, tape, gateway.mt5`sent
      ensures Dispatched(RecordSend, next, g) && next.outcome.Sent? && next.outcome.order.result == result
      ensures next.row == j.row && next.exec == j.exec && next.payload == j.payload && next.seen == j.seen
      ensures tape.log == old(tape.log) + [SendAsked(request, result)]
    {
      hide Run, Apply, Initial, UniqueIds, Requests, Decide, Pass, Focused, JobHeard, Transcribed, GateResult, OrderRequest;
      ghost var before := tape.log;
      ghost var filled, opens;
      result, filled, opens := gateway.OrderSend(request);
      ghost var a := Sending(result, filled, opens);
      assert PassedTo(cfg, SendSlice(cfg, j, a), 19) by {
        SameGates(j, a);
      }
      SendPasses(cfg, world.t, j, a);
      ClearedAsks(j);
      next := j.(outcome := Sent(OrderOf(cfg, j, a)));
      Take(Send, j, a, Move(SendOrder(OrderOf(cfg, j, a)), Running(RecordSend, next)), g, before);
    }

    lemma SameGates(j: Job, a: Answer)
      requires Cleared(j)
      ensures PassedTo(cfg, SendSlice(cfg, j, a), 19)
    {
      hide GateResult;
    }

    lemma ClearedAsks(j: Job)
      requires Cleared(j)
      ensures AsksSend(cfg, j.payload, j.seen)
    {
      hide GateResult;
      var x := SendSlice(cfg, j, Sending(None, false, false));
      assert Rank(CheckPassed) == 17 && Rank(LiveAllowed) == 18;
      assert GateResult(cfg, x.job.payload, x.job.seen, CheckPassed).None?;
      assert GateResult(cfg, x.job.payload, x.job.seen, LiveAllowed).None?;
    }

    /** The code of the result goes into the execution row. */
    method RecordResult(exec: nat, result: Option<SendResult>, ghost j: Job, ghost g: Origin)
      requires Dispatched(RecordSend, j, g) && j.exec == exec && j.outcome.order.result == result
      modifies this, db`executions
      ensures Dispatched(FinishExec, j, g)
    {
      hide Run, Apply, Initial, UniqueIds, Requests, Decide, Pass, Focused, JobHeard, Transcribed, OrderRequest;
      var code := if result.Some? then result.value.retcode else None;
      db.UpdateExecution(exec, SendField(code));
      RecordIs(cfg, world.t, j);
      Take(RecordSend, j, Seeing(NOTHING), Move(UpdateExec(exec, SendField(code)), Running(FinishExec, j)), g, tape.log);
    }

    // ---- the end of an attempt ----

    /** An attempt about to be closed: rejected, or its order is out and recorded. */
    ghost predicate Closable(j: Job, g: Origin)
      reads this, db, gateway.mt5, tape
    {
      if j.outcome.Stopped? then Rejected(j, g) else Dispatched(FinishExec, j, g)
    }

    /** What went out: nothing, or the one order as the last request in the terminal's log. */
    ghost predicate SentAtMostOwn(j: Job, g: Origin)
      reads gateway.mt5
    {
      match j.outcome
      case Undecided => false
      case Stopped(_, _) => gateway.mt5.sent == g.sent
      case Sent(order) => gateway.mt5.sent == g.sent + [order.request] && order.request == OrderRequest(cfg, j.payload, j.seen)
    }

    /** Both tables hold one status, explained by the first failing gate or by the order, and
        all that explains it was said by the terminal and the clock during the attempt. */
    ghost predicate Closed(j: Job, g: Origin)
      reads this, db, gateway.mt5, tape
    {
      && Valid() && world.workers == [Idle] && Explained(cfg, world, db.Contents(), j)
      && j.row < |db.signals| && db.signals[j.row].status == OutcomeStatus(j.outcome) && Settled(OutcomeStatus(j.outcome))
      && g.events <= history && OthersKept(g.t, db.Contents(), j.row, j.exec)
      && SentAtMostOwn(j, g) && Attested(FinishSignal, j, g, tape.log)
    }

    /** The final update of the execution row is done, that of the signal row is not. */
    ghost predicate HalfClosed(j: Job, g: Origin)
      reads this, db, gateway.mt5, tape
    {
      && Valid() && At(FinishSignal, j) && Since(db.Contents(), j, g) && Attested(FinishSignal, j, g, tape.log)
      && SentAtMostOwn(j, g)
    }

    method CloseExecution(exec: nat, status: Status, receipt: Receipt, ghost j: Job, ghost g: Origin)
      requires Closable(j, g) && j.exec == exec
      requires status == OutcomeStatus(j.outcome) && receipt == OutcomeReceipt(j.outcome)
      modifies this, tape, db`executions
      ensures HalfClosed(j, g)
    {
      hide Run, Apply, Initial, UniqueIds, Requests, Decide, Pass, Focused, JobHeard, Transcribed, OrderRequest;
      ghost var before := tape.log;
      var now := clock.Now();
      ghost var a := Answer(0, now, NOTHING, None, false, false);
      db.UpdateExecution(exec, FinishFields(status, now, receipt));
      FinishIs(cfg, world.t, j, a);
      Take(FinishExec, j, a, Move(UpdateExec(exec, FinishFields(status, now, receipt)), Running(FinishSignal, j)), g, before);
    }

    method CloseSignal(row: nat, id: string, status: Status, ghost j: Job, ghost g: Origin)
      requires HalfClosed(j, g) && j.row == row && j.payload.id == id && status == OutcomeStatus(j.outcome)
      modifies this, db`signals
      ensures Closed(j, g)
    {
      hide Run, Apply, Initial, UniqueIds, Requests, Decide, Pass, Focused, JobHeard, Transcribed, OrderRequest, Explained, SetRow;
      ghost var before := db.signals;
      db.UpdateSignalStatus(id, status);
      ByIdIsByRow(before, db.signals, row, before[row].(status := status));
      RowIsSet(world.t, row, status);
      SettleSignal(j, g);
    }

    lemma RowIsSet(t: Tables, row: nat, status: Status)
      requires row < |t.signals|
      ensures SetRow(t, row, status) == t.(signals := t.signals[row := t.signals[row].(status := status)])
    {
    }

    /** The two updates of `finish`: the execution row, then the signal row. */
    method Finish(row: nat, exec: nat, id: string, status: Status, receipt: Receipt, ghost j: Job, ghost g: Origin)
      requires Closable(j, g) && j.row == row && j.exec == exec && j.payload.id == id
      requires status == OutcomeStatus(j.outcome) && receipt == OutcomeReceipt(j.outcome)
      modifies this, tape, db`executions, db`signals
      ensures Closed(j, g)
    {
      hide HalfClosed, Closed, Closable;
      CloseExecution(exec, status, receipt, j, g);
      CloseSignal(row, id, status, j, g);
    }

    ghost method SettleSignal(j: Job, g: Origin)
      requires gateway.mt5.tape == tape && clock.tape == tape && db.Valid() && Follows(tape.log)
      requires At(FinishSignal, j) && !j.outcome.Undecided?
      requires Focused(g.t, world.t, j.row, j.exec) && g.events <= history
      requires db.Contents() == SetRow(world.t, j.row, OutcomeStatus(j.outcome))
      requires Requests(world.orders) == gateway.mt5.sent
      modifies this
      ensures Valid() && world.workers == [Idle] && Explained(cfg, world, db.Contents(), j)
      ensures j.row < |db.signals| && db.signals[j.row].status == OutcomeStatus(j.outcome)
      ensures Settled(OutcomeStatus(j.outcome))
      ensures g.events <= history && OthersKept(g.t, db.Contents(), j.row, j.exec)
    {
      hide Run, Apply, Initial, UniqueIds, Requests, Decide, Explained, Focused, Transcribed;
      ghost var a := Seeing(NOTHING);
      SettledByFirstFailingGate(cfg, 1, world, 0, a);
      AdvanceIs(cfg, world, FinishSignal, j, a);
      FinishIs(cfg, world.t, j, a);
      PerformIs(world, Move(SetStatus(j.row, OutcomeStatus(j.outcome)), Idle));
      StatusKeepsOthers(g.t, world.t, j.row, j.exec, OutcomeStatus(j.outcome));
      ghost var before := world;
      Record(Advance(0, a), tape.log, []);
      assert tape.log + [] == tape.log;
      SameExplanation(cfg, before, world, db.Contents(), j);
      ExplainedSettles(cfg, world, db.Contents(), j);
    }

    // ---- one attempt ----

    /** A claimed signal about to be processed. */
    ghost predicate Claimed(row: nat, signal: SignalRow)
      reads this, db, gateway.mt5, tape
    {
      && Valid() && row < |db.signals| && db.signals[row] == signal
      && world.workers == [Running(Insert, Job(row, signal.payload, 0, NOTHING, Undecided))]
    }

    /** The execution row is inserted before anything else, with the clock's time. */
    method OpenExecution(row: nat, signal: SignalRow) returns (j: Job, ghost g: Origin)
      requires Claimed(row, signal)
      modifies this, tape, db`executions
      ensures Ready(Admit, j, g) && j.row == row && j.payload == signal.payload && j.exec == |old(db.executions)|
      ensures g.sent == old(gateway.mt5.sent) && old(history) <= g.events
      ensures g.t == old(db.Contents()).(execs := g.t.execs)
      ensures |g.t.execs| == j.exec + 1 && g.t.execs[..j.exec] == old(db.executions)
      ensures g.t.execs[j.exec].signal == row && g.t.execs[j.exec].attempt == signal.attempts
      ensures g.log == tape.log == old(tape.log) + [ClockRead(g.t.execs[j.exec].startedAt)]
    {
      hide Run, Apply, Initial, Decide, Transcribed;
      ghost var before := tape.log;
      var now := clock.Now();
      var claimed := Job(row, signal.payload, 0, NOTHING, Undecided);
      var record := NewExecution(cfg, claimed, signal.attempts, now);
      var exec := db.InsertExecution(record);
      j := claimed.(exec := exec);
      ghost var a := Answer(now, 0, NOTHING, None, false, false);
      InsertIs(cfg, world.t, claimed, now);
      AdvanceIs(cfg, world, Insert, claimed, a);
      PerformIs(world, Move(InsertExec(record), Running(Step.Admit, j)));
      Record(Advance(0, a), before, [ClockRead(now)]);
      g := Origin(db.Contents(), gateway.mt5.sent, history, tape.log);
    }

    /** A rejected attempt is closed with the status of the gate that stopped it. */
    method Close(j: Job, ghost g: Origin) returns (end: End)
      requires Rejected(j, g)
      modifies this, tape, db`executions, db`signals
      ensures Closed(j, g) && end == Returned(OutcomeStatus(j.outcome))
    {
      Finish(j.row, j.exec, j.payload.id, j.outcome.status, NO_RECEIPT, j, g);
      end := Returned(j.outcome.status);
    }

    ghost predicate Ended(end: End, was: Job, last: Job, g: Origin)
      reads this, db, gateway.mt5, tape
    {
      && last.row == was.row && last.exec == was.exec && last.payload == was.payload
      && match end
         case Returned(status) => Closed(last, g) && status == OutcomeStatus(last.outcome)
         case Raised => Abandoned(last, g)
    }

    /** The whole pipeline.  An attempt that returns has closed both tables with one status,
        that of the first gate in order that fails on what it was told, or that of the send;
        at most one request went out, checked by the broker before, and only the attempt's own
        two rows changed.  It raises only for a signal without a stop that the settings let
        through. */
    method ProcessSignal(row: nat, signal: SignalRow) returns (end: End, ghost last: Job, ghost g: Origin)
      requires Claimed(row, signal)
      modifies this, tape, db`executions, db`signals, db`baselines, gateway, gateway.mt5
      ensures last.row == row && last.payload == signal.payload && last.exec == |old(db.executions)|
      ensures Ended(end, last, last, g)
      ensures g.sent == old(gateway.mt5.sent) && old(history) <= g.events && old(tape.log) <= g.log
      ensures g.t == old(db.Contents()).(execs := g.t.execs)
      ensures |g.t.execs| == last.exec + 1 && g.t.execs[..last.exec] == old(db.executions)
      ensures end == Returned(OutcomeStatus(last.outcome)) && last.outcome.Sent? ==> CheckedThenSent(last, g)
    {
      hide Run, Apply, Initial, Decide, Since, Attested, Explained, Transcribed, OrderRequest, OthersKept, UniqueIds, Requests;
      var j;
      j, g := OpenExecution(row, signal);
      last := j;
      j := CheckIntake(j, g);
      last := j;
      if j.outcome.Stopped? {
        end := Close(j, g);
        return;
      }
      StoreMapped(j, g);
      j := IdentifyAccount(j, g);
      last := j;
      if j.outcome.Stopped? {
        end := Close(j, g);
        return;
      }
      end, last := TradeIdentified(j, g);
      if end.Returned? && last.outcome.Sent? {
        AttestedOrder(last, g);
      }
    }

    /** The request that went out was checked by the broker during the attempt, with a good
        code, and the recorded result is the broker's answer to it. */
    ghost predicate CheckedThenSent(j: Job, g: Origin)
      requires j.outcome.Sent?
      reads tape
    {
      var request := j.outcome.order.request;
      && g.log <= tape.log
      && (CheckAsked(request, Some(Some(0))) in tape.log[|g.log|..] || CheckAsked(request, Some(Some(10009))) in tape.log[|g.log|..])
      && SendAsked(request, j.outcome.order.result) in tape.log[|g.log|..]
    }

    lemma AttestedOrder(j: Job, g: Origin)
      requires Closed(j, g) && j.outcome.Sent?
      ensures CheckedThenSent(j, g)
    {
      hide Run, Apply, Initial, Decide, Focused, OthersKept, Transcribed, OrderRequest, Requests, UniqueIds, Explained, Failing;
      ExplainedOrder(cfg, world, db.Contents(), j);
      var log := tape.log[|g.log|..];
      assert HeardCheck(cfg, j.payload, j.seen, log);
      var checked: Option<Option<int>> :|
        CheckAsked(OrderRequest(cfg, j.payload, j.seen), checked) in log && j.seen.check == checked.GetOr(None);
      assert checked == Some(Some(0)) || checked == Some(Some(10009));
    }

    /** From the quote on, under a known account. */
    method TradeIdentified(k: Job, ghost g: Origin) returns (end: End, ghost last: Job)
      requires Ready(Quote, k, g) && gateway.available
      modifies this, tape, db`executions, db`signals, db`baselines, gateway.mt5`sent
      ensures Ended(end, k, last, g)
    {
      hide Ready, Rejected, Dispatched, Closed, Abandoned, Valid, Run, OrderRequest;
      var j := QuoteSymbol(k, g);
      last := j;
      if j.outcome.Stopped? {
        end := Close(j, g);
        return;
      }
      j := CheckMarket(j, g);
      last := j;
      if j.outcome.Stopped? {
        end := Close(j, g);
        return;
      }
      j := CheckTradeCount(j, g);
      last := j;
      if j.outcome.Stopped? {
        end := Close(j, g);
        return;
      }
      j := CheckPositions(j, g);
      last := j;
      if j.outcome.Stopped? {
        end := Close(j, g);
        return;
      }
      j := LoadBaseline(j, g);
      end, last := TradeGuarded(j, g);
    }

    /** Sizing, the broker's check and the send. */
    method TradeGuarded(k: Job, ghost g: Origin) returns (end: End, ghost last: Job)
      requires Ready(Size, k, g) && gateway.available
      modifies this, tape, db`executions, db`signals, gateway.mt5`sent
      ensures Ended(end, k, last, g)
    {
      hide Ready, Rejected, Dispatched, Closed, Abandoned, Valid, Run, OrderRequest;
      var j, raised := SizePosition(k, g);
      last := j;
      if raised {
        last := k;
        return End.Raised, last;
      }
      if j.outcome.Stopped? {
        end := Close(j, g);
        return;
      }
      var checked, request, _ := CheckOrder(j, g);
      j := CheckLive(checked, g);
      last := j;
      if j.outcome.Stopped? {
        end := Close(j, g);
        return;
      }
      var result;
      result, last := Transmit(j, request, g);
      RecordResult(j.exec, result, last, g);
      Finish(j.row, j.exec, j.payload.id, SendStatus(result), SendReceipt(result), last, g);
      end := Returned(SendStatus(result));
    }

    // ---- intake, claims, crashes and recovery ----

    /** An event during which nothing is said. */
    ghost method Note(e: Event)
      requires gateway.mt5.tape == tape && Follows(tape.log) && Told(cfg, world, e, [])
      modifies this
      ensures Follows(tape.log) && history == old(history) + [e] && world == Apply(cfg, old(world), e)
    {
      hide Run, Apply, Initial, Told, Transcribed;
      Record(e, tape.log, []);
      assert tape.log + [] == tape.log;
    }

    /** A submission, as the signal service passes it on; true when it was a duplicate. */
    method Submit(payload: Payload) returns (duplicate: bool)
      requires Valid()
      modifies this, db`signals
      ensures Valid() && history == old(history) + [Event.Submit(payload)]
      ensures world.workers == old(world).workers && db.signals == InsertIfNew(old(db.signals), payload)
      ensures duplicate <==> HasId(old(db.signals), payload.id)
    {
      hide Run, Initial, Transcribed;
      var row, created := db.InsertSignalIfNew(payload);
      Note(Event.Submit(payload));
      duplicate := !created;
    }

    /** The database has just claimed for an idle worker. */
    ghost method NoteClaim(row: Option<nat>)
      requires gateway.mt5.tape == tape && clock.tape == tape
      requires db.Valid() && Follows(tape.log) && Requests(world.orders) == gateway.mt5.sent
      requires world.workers == [Idle] && row == LeastPending(world.t.signals, 0)
      requires db.Contents() == if row.None? then world.t else PerformOn(world.t, ClaimRow(row.value))
      modifies this
      ensures old(history) <= history
      ensures row.None? ==> Valid() && world.workers == [Idle]
      ensures row.Some? ==> row.value < |db.signals| && Claimed(row.value, db.signals[row.value])
    {
      hide Run, Apply, Initial, Transcribed;
      ClaimIs(cfg, world);
      Note(Select(0));
      Note(Claim(0));
    }

    /** The process dies, perhaps with calls on the tape that it never got to use: locals are
        gone, the database and the broker stay. */
    ghost method Crash(before: seq<Exchange>)
      requires gateway.mt5.tape == tape && clock.tape == tape
      requires db.Valid() && Follows(before) && world.t == db.Contents() && Requests(world.orders) == gateway.mt5.sent
      requires before <= tape.log && Harmless(Said(before))
      modifies this
      ensures Valid() && world.workers == [Down] && history == old(history) + [Kill(0)]
    {
      hide Run, Apply, Initial, Transcribed;
      RunIsInFlight(cfg, open, history);
      KillIs(cfg, world);
      Record(Kill(0), before, Said(before));
      assert before + tape.log[|before|..] == tape.log;
    }

    ghost method BeginRecovery()
      requires Valid() && world.workers == [Down]
      modifies this
      ensures Valid() && history == old(history) + [Start(0)]
      ensures world.workers == [Recovering(RowsWith(db.signals, Processing))]
    {
      hide Run, Apply, Initial, Transcribed;
      StartIs(cfg, world);
      Note(Start(0));
    }

    ghost method EndRecovery()
      requires Valid() && world.workers == [Recovering([])]
      modifies this
      ensures Valid() && history == old(history) + [Reconcile(0, false, [])] && world.workers == [Idle]
    {
      hide Run, Apply, Initial, Transcribed;
      RecoveryEndsIs(cfg, world);
      Note(Reconcile(0, false, []));
    }

    /** Search the history that the terminal gives for the tag; only a match counts. */
    method FindDealByComment(comment: string) returns (found: bool, deals: seq<string>)
      requires gateway.mt5.tape == tape && gateway.available
      modifies tape
      ensures found <==> comment in deals
      ensures |tape.log| == |old(tape.log)| + 1 && old(tape.log) <= tape.log
      ensures var answer := tape.log[|old(tape.log)|]; answer.HistoryAsked? && deals == answer.comments.GetOr([])
    {
      deals := gateway.HistoryDealsGet();
      var n := 0;
      while n < |deals|
        invariant n <= |deals| && comment !in deals[..n]
      {
        if deals[n] == comment {
          return true, deals;
        }
        n := n + 1;
      }
      found := false;
    }

    /** What the terminal says of a stuck signal, if it can be reached at all. */
    method AskHistory(comment: string) returns (found: bool, answer: Option<seq<string>>)
      requires gateway.mt5.tape == tape
      modifies gateway`connected, tape
      ensures found <==> answer.Some? && comment in answer.value
      ensures old(tape.log) <= tape.log
      ensures Reconciliation(Said(old(tape.log)), answer.Some?, answer.GetOr([]))
    {
      hide Connects, EnsuredConnection;
      ghost var cached := gateway.connected;
      var connected := EnsureConnected();
      ghost var dial := Said(old(tape.log));
      EnsuredConnects(gateway.available, cached, dial, connected);
      if !connected {
        return false, None;
      }
      ghost var before := tape.log;
      var deals;
      found, deals := FindDealByComment(comment);
      answer := Some(deals);
      assert Said(old(tape.log)) == dial + [tape.log[|before|]];
      assert (dial + [tape.log[|before|]])[..|dial|] == dial;
    }

    /** A stuck signal is settled by what the broker's history shows; nothing is sent. */
    method ReconcileStuckSignal(row: nat, id: string, ghost rest: seq<nat>) returns (status: Status, answer: Option<seq<string>>)
      requires Valid() && world.workers == [Recovering([row] + rest)]
      requires row < |db.signals| && db.signals[row].payload.id == id
      modifies this, tape, db`signals, gateway`connected
      ensures Valid() && world.workers == [Recovering(rest)] && old(history) < history
      ensures old(tape.log) <= tape.log && Reconciliation(Said(old(tape.log)), answer.Some?, answer.GetOr([]))
      ensures status == if answer.Some? && cfg.tag(id) in answer.value then RecoveredExecuted else ReviewRequired
      ensures db.signals == old(db.signals)[row := old(db.signals)[row].(status := status)]
    {
      hide Run, Apply, Initial, Transcribed, Reconciliation, UniqueIds, Requests;
      ghost var rows, before := db.signals, tape.log;
      var found;
      found, answer := AskHistory(cfg.tag(id));
      status := if found then RecoveredExecuted else ReviewRequired;
      db.UpdateSignalStatus(id, status);
      ByIdIsByRow(rows, db.signals, row, rows[row].(status := status));
      ReconcileIs(cfg, world, row, rest, answer.Some?, answer.GetOr([]));
      Record(Reconcile(0, answer.Some?, answer.GetOr([])), before, Said(before));
      assert before + tape.log[|before|..] == tape.log;
    }
  }

  /** What the run theorems say of the objects: the terminal's log holds one request per order
      of the machine, no two of them are for the same signal, and each rests on answers that
      the terminal gave, a check of that very request among them. */
  lemma SentAtMostOnce(s: ExecutionService)
    requires s.Valid()
    ensures |s.world.orders| == |s.gateway.mt5.sent|
    ensures forall i | 0 <= i < |s.gateway.mt5.sent| ::
      var o := s.world.orders[i];
      && s.gateway.mt5.sent[i] == o.request && o.request.comment == s.cfg.tag(o.payload.id)
      && o.row < |s.db.signals| && s.db.signals[o.row].payload == o.payload && s.db.signals[o.row].status != Pending
      && OrderHeard(s.cfg, o, s.tape.log)
    ensures OncePerSignal(s.world.orders)
  {
    hide Run, Apply, Initial, Transcribed, OrderHeard;
    var w := s.world;
    ReachableIsUnder(s.cfg, 1, w);
    AtMostOnceSend(s.cfg.tag, 1, w);
    RunIsHeard(s.cfg, 1, s.open, s.history, s.heard, s.tape.log);
    assert w.t.signals == s.db.signals;
    assert |w.orders| == |s.gateway.mt5.sent|;
    forall i | 0 <= i < |s.gateway.mt5.sent|
      ensures var o := w.orders[i];
        s.gateway.mt5.sent[i] == o.request && o.request.comment == s.cfg.tag(o.payload.id)
        && o.row < |w.t.signals| && w.t.signals[o.row].payload == o.payload && w.t.signals[o.row].status != Pending
        && OrderHeard(s.cfg, o, s.tape.log)
    {
      RequestAt(s.world.orders, i);
      OrdersCarryFirstSubmission(s.cfg, 1, s.world, i);
    }
  }

  lemma {:induction false} RequestAt(orders: seq<Order>, i: nat)
    requires i < |orders|
    ensures Requests(orders)[i] == orders[i].request
    decreases |orders|
  {
    if i < |orders| - 1 {
      RequestAt(orders[..|orders| - 1], i);
    }
  }
}
