/** One execution attempt as a sequence of atomic steps.  A step reads what the host, the
    terminal and the tables answer, passes a slice of the ordered gates and has at most one
    effect outside the attempt's own locals. */
module Pipeline {
  import opened Types
  import opened Risk
  import opened Sizing
  import opened AccountKeys

  const RETCODE_PLACED := 10008
  const RETCODE_DONE := 10009
  const RETCODE_DONE_PARTIAL := 10010
  const DEVIATION := 20

  /** What an attempt has observed so far, with the account key and the sizing result that it
      computes from its observations and keeps. */
  datatype Observed = Observed(
    now: int,
    connected: bool,
    account: Option<Account>,
    key: Option<string>,
    info: Option<SymbolInfo>,
    tick: Option<Tick>,
    brokerNow: Option<int>,
    trades: nat,
    positions: Option<seq<int>>,
    baseline: real,
    profit: Option<real>,
    sized: VolumeResult,
    check: Option<int>)

  const NOTHING := Observed(0, false, None, None, None, None, None, 0, None, 0.0, None, Unusable, None)

  /** Everything outside the tables that can influence a step, chosen by an adversary:
      the host clock, the terminal's answers and what the broker does with an order. */
  datatype Answer = Answer(
    startedAt: int,
    finishedAt: int,
    seen: Observed,
    result: Option<SendResult>,
    filled: bool,
    opens: bool)

  /** An entry of the broker's log: the order, what the attempt had observed when it sent
      it, what the bridge was told and what really happened. */
  datatype Order = Order(
    row: nat,
    exec: nat,
    payload: Payload,
    seen: Observed,
    request: Request,
    result: Option<SendResult>,
    filled: bool,
    opens: bool)

  /** An entry of the log of `order_check` calls: the attempt, what it asked and the code. */
  datatype Inquiry = Inquiry(row: nat, exec: nat, request: Request, code: Option<int>)

  // ---- what an attempt derives from its observations ----

  function AccountKey(o: Observed): Option<string> {
    if o.account.None? then None else AccountKeyFor(o.account.value)
  }

  function Key(o: Observed): string {
    o.key.GetOr("")
  }

  function Equity(o: Observed): real {
    if o.account.None? then 0.0 else o.account.value.equity
  }

  function EntryPrice(p: Payload, o: Observed): real {
    if o.tick.None? then 0.0 else if p.action == Buy then o.tick.value.ask else o.tick.value.bid
  }

  function DayStart(o: Observed): int {
    StartOfTradingDay(o.brokerNow.GetOr(0))
  }

  function BaselineKeyOf(o: Observed): BaselineKey {
    (Key(o), TradingDayKey(o.brokerNow.GetOr(0)))
  }

  function MappedSymbol(cfg: Settings, p: Payload): string {
    if p.symbol in cfg.symbolMap then cfg.symbolMap[p.symbol] else ""
  }

  function Info(o: Observed): SymbolInfo {
    o.info.GetOr(SymbolInfo(None, None, None, None, None))
  }

  function VolumeStep(o: Observed): real {
    Info(o).volumeStep.GetOr(0.01)
  }

  function VolumeOf(p: Payload, o: Observed): VolumeResult {
    CalculateVolume(o.profit, EntryPrice(p, o), p.stopLoss, Equity(o), p.riskPercent,
                    Info(o).volumeMin.GetOr(0.01), Info(o).volumeMax.GetOr(100.0), VolumeStep(o))
  }

  function PlannedVolume(o: Observed): real {
    match o.sized
    case Sized(v) => v
    case _ => 0.0
  }

  /** A filling mode that the symbol's bit mask allows, the first that fits. */
  function ResolveFilling(mode: Option<int>): Filling {
    if mode.None? then ImmediateOrCancel
    else if mode.value % 2 == 1 then FillOrKill
    else if mode.value / 2 % 2 == 1 then ImmediateOrCancel
    else ReturnRest
  }

  function OrderRequest(cfg: Settings, p: Payload, o: Observed): Request {
    Request(MappedSymbol(cfg, p), PlannedVolume(o), p.action, EntryPrice(p, o), DEVIATION,
            cfg.magic, cfg.tag(p.id), ResolveFilling(Info(o).fillingMode), p.stopLoss, p.takeProfit)
  }

  // ---- the gates ----

  datatype Gate =
    | Fresh | ActionEnabled | SymbolMapped
    | Connected | AccountKnown | AccountNamed
    | SymbolUsable | TickKnown
    | BrokerTimeKnown | StopLossValid | SpreadValid | TradesLeft
    | PositionsKnown | PositionsLeft
    | LossWithin | RiskWithin | VolumeFound
    | CheckPassed | LiveAllowed

  const GATES := 19

  function GateAt(n: nat): Gate
    requires n < GATES
  {
    [Fresh, ActionEnabled, SymbolMapped, Connected, AccountKnown, AccountNamed, SymbolUsable,
     TickKnown, BrokerTimeKnown, StopLossValid, SpreadValid, TradesLeft, PositionsKnown,
     PositionsLeft, LossWithin, RiskWithin, VolumeFound, CheckPassed, LiveAllowed][n]
  }

  /** The place of a gate in the order of the code. */
  function Rank(g: Gate): (n: nat)
    ensures n < GATES && GateAt(n) == g
  {
    match g
    case Fresh => 0 case ActionEnabled => 1 case SymbolMapped => 2
    case Connected => 3 case AccountKnown => 4 case AccountNamed => 5
    case SymbolUsable => 6 case TickKnown => 7
    case BrokerTimeKnown => 8 case StopLossValid => 9 case SpreadValid => 10 case TradesLeft => 11
    case PositionsKnown => 12 case PositionsLeft => 13
    case LossWithin => 14 case RiskWithin => 15 case VolumeFound => 16
    case CheckPassed => 17 case LiveAllowed => 18
  }

  function FailUnless(ok: bool, status: Status): Option<Status> {
    if ok then None else Some(status)
  }

  /** The status with which a gate stops an attempt, or None when it lets it pass. */
  function GateResult(cfg: Settings, p: Payload, o: Observed, g: Gate): Option<Status> {
    match g
    case Fresh => CheckFreshness(p.timestamp, cfg.maxSignalAgeSeconds, o.now)
    case ActionEnabled => FailUnless(if p.action == Buy then cfg.allowMarketBuy else cfg.allowMarketSell, RejectedRisk)
    case SymbolMapped => FailUnless(p.symbol in cfg.symbolMap, RejectedSymbol)
    case Connected => FailUnless(o.connected, FailedMt5Unavailable)
    case AccountKnown => FailUnless(o.account.Some?, FailedMt5Unavailable)
    case AccountNamed => FailUnless(o.key.Some?, FailedMt5Unavailable)
    case SymbolUsable => FailUnless(o.info.Some?, RejectedSymbolUnavailable)
    case TickKnown => FailUnless(o.tick.Some?, FailedMt5Unavailable)
    case BrokerTimeKnown => FailUnless(o.brokerNow.Some?, FailedBrokerTimeUnknown)
    case StopLossValid => CheckStopLoss(p.action, p.stopLoss, EntryPrice(p, o), cfg.requireStopLoss)
    case SpreadValid =>
      var tick := o.tick.GetOr(Tick(0.0, 0.0));
      CheckSpread(tick.bid, tick.ask, Info(o).point.GetOr(0.0), cfg.maxSpreadPoints)
    case TradesLeft => CheckDailyTradeLimit(o.trades, cfg.maxTradesPerDay)
    case PositionsKnown => FailUnless(o.positions.Some?, FailedMt5StateUnknown)
    case PositionsLeft => CheckPositionLimit(multiset(o.positions.GetOr([]))[cfg.magic], cfg.maxOpenPositions)
    case LossWithin => CheckDailyLoss(Equity(o), o.baseline, cfg.maxDailyLossPercent)
    case RiskWithin => CheckRiskPercent(p.riskPercent, cfg.maxRiskPercent)
    case VolumeFound =>
      (match o.sized
       case Sized(_) => None
       case BelowMinimum(_) => Some(RejectedVolumeBelowMinimum)
       case _ => Some(RejectedVolume))
    case CheckPassed => FailUnless(o.check == Some(0) || o.check == Some(RETCODE_DONE), RejectedOrderCheck)
    case LiveAllowed => FailUnless(!cfg.dryRun && cfg.LiveExecutionAllowed(), DryRunApproved)
  }

  /** The gates that stop this attempt, given what it has observed. */
  function Failing(cfg: Settings, p: Payload, o: Observed): set<Gate> {
    set g: Gate | GateResult(cfg, p, o, g).Some?
  }

  ghost predicate PassedBelow(fails: set<Gate>, n: nat) {
    forall g | g in fails :: n <= Rank(g)
  }

  /** The declarative reading of the pipeline: the first gate in order that does not pass. */
  ghost predicate IsFirst(fails: set<Gate>, g: Gate) {
    g in fails && PassedBelow(fails, Rank(g))
  }

  /** The first failing gate of a slice of the order. */
  function FirstIn(fails: set<Gate>, from: nat, until: nat): (r: Option<Gate>)
    requires from <= until <= GATES
    ensures r.None? ==> forall g | g in fails :: !(from <= Rank(g) < until)
    ensures r.Some? ==> r.value in fails && from <= Rank(r.value) < until
    ensures r.Some? ==> forall g | g in fails :: !(from <= Rank(g) < Rank(r.value))
    decreases until - from
  {
    if from == until then None
    else
      var g := GateAt(from);
      assert Rank(g) == from;
      if g in fails then Some(g) else FirstIn(fails, from + 1, until)
  }

  // ---- steps, locals and effects ----

  datatype Step =
    | Insert | Admit | Normalize | Identify | Quote | Guard | CountDay | CountPositions
    | ReadBaseline | WriteBaseline | Size | Check | RecordCheck | Send | RecordSend
    | FinishExec | FinishSignal

  datatype Outcome =
    | Undecided
    | Stopped(gate: Gate, status: Status)
    | Sent(order: Order)

  datatype Job = Job(row: nat, payload: Payload, exec: nat, seen: Observed, outcome: Outcome)

  datatype Phase =
    | Down
    | Recovering(queue: seq<nat>)
    | Idle
    | Selected(row: nat)
    | Running(step: Step, job: Job)

  datatype Effect =
    | NoEffect
    | InsertExec(record: Execution)
    | UpdateExec(exec: nat, fields: Fields)
    | StoreSymbol(row: nat, symbol: string)
    | StoreBaseline(key: BaselineKey, equity: real)
    | AskCheck(inquiry: Inquiry)
    | SendOrder(order: Order)
    | SetStatus(row: nat, status: Status)
    | ClaimRow(row: nat)
    | Reconciled(row: nat, status: Status, deals: Option<seq<string>>)

  datatype Move = Move(effect: Effect, phase: Phase)

  function SendStatus(result: Option<SendResult>): Status {
    match result
    case None => ReviewRequired
    case Some(r) =>
      if r.retcode == Some(RETCODE_DONE) then Executed
      else if r.retcode == Some(RETCODE_DONE_PARTIAL) then ExecutedPartial
      else if r.retcode == Some(RETCODE_PLACED) then ReviewRequired
      else FailedOrderSend
  }

  function ReturnedCode(result: Option<SendResult>): Option<int> {
    if result.Some? then result.value.retcode else None
  }

  /** The exposure columns that the final update writes for a send result. */
  function SendReceipt(result: Option<SendResult>): Receipt {
    match SendStatus(result)
    case Executed => result.value.receipt
    case ExecutedPartial => result.value.receipt
    case ReviewRequired => if result.None? then NO_RECEIPT else result.value.receipt.(volume := None, price := None)
    case _ => NO_RECEIPT
  }

  function OutcomeStatus(c: Outcome): Status {
    match c
    case Undecided => Processing
    case Stopped(_, status) => status
    case Sent(order) => SendStatus(order.result)
  }

  function OutcomeReceipt(c: Outcome): Receipt {
    if c.Sent? then SendReceipt(c.order.result) else NO_RECEIPT
  }

  function NewExecution(cfg: Settings, job: Job, attempt: nat, startedAt: int): Execution {
    Execution(job.row, None, attempt, startedAt, None, cfg.dryRun, None, job.payload.action, None, None,
              job.payload.stopLoss, job.payload.takeProfit, None, None, NO_RECEIPT, Processing)
  }

  /** Trades of one account since an instant, as the SQL counts them. */
  predicate Counted(x: Execution, key: string, since: int) {
    CountsAsTrade(x.status) && x.accountKey == Some(key) && x.startedAt >= since
  }

  function CountTrades(execs: seq<Execution>, key: string, since: int): nat {
    if execs == [] then 0
    else
      var n := |execs| - 1;
      CountTrades(execs[..n], key, since) + if Counted(execs[n], key, since) then 1 else 0
  }

  /** Pass a slice of gates and go on, or settle with the first one that fails. */
  function Through(cfg: Settings, job: Job, from: nat, until: nat, effect: Effect, next: Step): Move
    requires from <= until <= GATES
  {
    match FirstIn(Failing(cfg, job.payload, job.seen), from, until)
    case None => Move(effect, Running(next, job))
    case Some(g) =>
      Move(NoEffect, Running(FinishExec, job.(outcome := Stopped(g, GateResult(cfg, job.payload, job.seen, g).value))))
  }

  /** The number of gates that are known to have passed when a step begins. */
  function GatesBefore(s: Step): nat {
    match s
    case Insert => 0 case Admit => 0
    case Normalize => 3 case Identify => 3
    case Quote => 6
    case Guard => 8 case CountDay => 11
    case CountPositions => 12
    case ReadBaseline => 14 case WriteBaseline => 14 case Size => 14
    case Check => 17 case RecordCheck => 17 case Send => 17
    case RecordSend => 19
    case FinishExec => 0 case FinishSignal => 0
  }

  function Identified(o: Observed, seen: Observed): Observed {
    var q := o.(connected := seen.connected, account := seen.account);
    q.(key := AccountKey(q))
  }

  function Priced(p: Payload, o: Observed, seen: Observed): Observed {
    var q := o.(profit := seen.profit);
    q.(sized := VolumeOf(p, q))
  }

  function Decide(cfg: Settings, t: Tables, s: Step, job: Job, a: Answer): Move
    requires job.row < |t.signals|
  {
    var p, o, seen := job.payload, job.seen, a.seen;
    match s
    case Insert =>
      Move(InsertExec(NewExecution(cfg, job, t.signals[job.row].attempts, a.startedAt)),
           Running(Admit, job.(exec := |t.execs|)))
    case Admit =>
      var j := job.(seen := o.(now := seen.now));
      Through(cfg, j, 0, 3, UpdateExec(j.exec, SymbolField(MappedSymbol(cfg, p))), Normalize)
    case Normalize =>
      Move(StoreSymbol(job.row, MappedSymbol(cfg, p)), Running(Identify, job))
    case Identify =>
      var j := job.(seen := Identified(o, seen));
      Through(cfg, j, 3, 6, UpdateExec(j.exec, AccountField(Key(j.seen))), Quote)
    case Quote =>
      var j := job.(seen := o.(info := seen.info, tick := seen.tick));
      Through(cfg, j, 6, 8, UpdateExec(j.exec, EntryField(EntryPrice(p, j.seen))), Guard)
    case Guard =>
      Through(cfg, job.(seen := o.(brokerNow := seen.brokerNow)), 8, 11, NoEffect, CountDay)
    case CountDay =>
      var j := job.(seen := o.(trades := CountTrades(t.execs, Key(o), DayStart(o))));
      Through(cfg, j, 11, 12, NoEffect, CountPositions)
    case CountPositions =>
      Through(cfg, job.(seen := o.(positions := seen.positions)), 12, 14, NoEffect, ReadBaseline)
    case ReadBaseline =>
      var key := BaselineKeyOf(o);
      if key in t.baselines then Move(NoEffect, Running(Size, job.(seen := o.(baseline := t.baselines[key]))))
      else Move(NoEffect, Running(WriteBaseline, job))
    case WriteBaseline =>
      Move(StoreBaseline(BaselineKeyOf(o), Equity(o)), Running(Size, job.(seen := o.(baseline := Equity(o)))))
    case Size =>
      var j := job.(seen := Priced(p, o, seen));
      if FirstIn(Failing(cfg, p, j.seen), 14, 17) == Some(VolumeFound) && j.seen.sized.Raised?
      then Move(NoEffect, Idle)
      else Through(cfg, j, 14, 17, UpdateExec(j.exec, VolumeField(PlannedVolume(j.seen))), Check)
    case Check =>
      Move(AskCheck(Inquiry(job.row, job.exec, OrderRequest(cfg, p, o), seen.check)),
           Running(RecordCheck, job.(seen := o.(check := seen.check))))
    case RecordCheck =>
      Move(UpdateExec(job.exec, CheckField(o.check)), Running(Send, job))
    case Send =>
      var order := Order(job.row, job.exec, p, o, OrderRequest(cfg, p, o), a.result, a.filled, a.opens);
      var sent := Through(cfg, job, 17, 19, SendOrder(order), RecordSend);
      if sent.effect.SendOrder? then sent.(phase := Running(RecordSend, job.(outcome := Sent(order)))) else sent
    case RecordSend =>
      Move(UpdateExec(job.exec, SendField(if job.outcome.Sent? then ReturnedCode(job.outcome.order.result) else None)),
           Running(FinishExec, job))
    case FinishExec =>
      Move(UpdateExec(job.exec, FinishFields(OutcomeStatus(job.outcome), a.finishedAt, OutcomeReceipt(job.outcome))),
           Running(FinishSignal, job))
    case FinishSignal =>
      Move(SetStatus(job.row, OutcomeStatus(job.outcome)), Idle)
  }
}
