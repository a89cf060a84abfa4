/** The records of the bridge: signals, execution attempts, broker answers and
    settings.  Prices and volumes are `real`, instants are microseconds. */
module Types {

  datatype Option<+T> = None | Some(value: T) {
    function GetOr(default: T): (r: T)
      ensures this.Some? ==> r == this.value
      ensures this.None? ==> r == default
    {
      match this
      case Some(v) => v
      case None => default
    }
  }

  datatype Action = Buy | Sell

  datatype Status =
    | Pending
    | Processing
    | DryRunApproved
    | DryRunRejected
    | Executed
    | ExecutedPartial
    | RecoveredExecuted
    | RejectedStale
    | RejectedFutureTimestamp
    | RejectedSymbol
    | RejectedSymbolUnavailable
    | RejectedRisk
    | RejectedStopLoss
    | RejectedSpread
    | RejectedDailyLoss
    | RejectedDailyTradeLimit
    | RejectedPositionLimit
    | RejectedVolume
    | RejectedVolumeBelowMinimum
    | RejectedOrderCheck
    | FailedMt5Unavailable
    | FailedMt5StateUnknown
    | FailedBrokerTimeUnknown
    | FailedOrderSend
    | ReviewRequired

  /** Neither waiting nor in progress: no step of the bridge takes the row up again. */
  predicate Settled(s: Status) {
    s != Pending && s != Processing
  }

  /** The statuses that the daily trade count selects. */
  predicate CountsAsTrade(s: Status) {
    s == Executed || s == ExecutedPartial || s == RecoveredExecuted
  }

  /** What a signal source submits. */
  datatype Payload = Payload(
    id: string,
    timestamp: int,
    symbol: string,
    action: Action,
    riskPercent: real,
    stopLoss: Option<real>,
    takeProfit: Option<real>)

  /** A row of `signals`.  Its id is its position, as rows are never deleted. */
  datatype SignalRow = SignalRow(
    payload: Payload,
    normalized: Option<string>,
    status: Status,
    attempts: nat)

  datatype Receipt = Receipt(
    order: Option<int>,
    deal: Option<int>,
    volume: Option<real>,
    price: Option<real>)

  const NO_RECEIPT := Receipt(None, None, None, None)

  /** A row of `executions`; `signal` is the position of the signal it refers to. */
  datatype Execution = Execution(
    signal: nat,
    accountKey: Option<string>,
    attempt: nat,
    startedAt: int,
    finishedAt: Option<int>,
    dryRun: bool,
    symbol: Option<string>,
    action: Action,
    volume: Option<real>,
    entryPrice: Option<real>,
    stopLoss: Option<real>,
    takeProfit: Option<real>,
    checkCode: Option<int>,
    sendCode: Option<int>,
    receipt: Receipt,
    status: Status)

  /** The columns that one `update_execution` call assigns. */
  datatype Fields =
    | SymbolField(symbol: string)
    | AccountField(key: string)
    | EntryField(price: real)
    | VolumeField(volume: real)
    | CheckField(code: Option<int>)
    | SendField(code: Option<int>)
    | FinishFields(status: Status, at: int, receipt: Receipt)

  function Patch(x: Execution, f: Fields): Execution {
    match f
    case SymbolField(s) => x.(symbol := Some(s))
    case AccountField(key) => x.(accountKey := Some(key))
    case EntryField(price) => x.(entryPrice := Some(price))
    case VolumeField(v) => x.(volume := Some(v))
    case CheckField(code) => x.(checkCode := code)
    case SendField(code) => x.(sendCode := code)
    case FinishFields(status, at, receipt) => x.(status := status, finishedAt := Some(at), receipt := receipt)
  }

  type BaselineKey = (string, int)

  datatype Tables = Tables(
    signals: seq<SignalRow>,
    execs: seq<Execution>,
    baselines: map<BaselineKey, real>)

  datatype Settings = Settings(
    dryRun: bool,
    liveExecutionEnabled: bool,
    magic: int,
    maxRiskPercent: real,
    maxDailyLossPercent: real,
    maxOpenPositions: int,
    maxTradesPerDay: int,
    maxSpreadPoints: int,
    requireStopLoss: bool,
    allowMarketBuy: bool,
    allowMarketSell: bool,
    maxSignalAgeSeconds: int,
    symbolMap: map<string, string>,
    tag: string -> string)
  {
    /** Both flags must agree before a live order can be sent. */
    predicate LiveExecutionAllowed() {
      !dryRun && liveExecutionEnabled
    }
  }

  /** Attributes that the SDK object may lack are options. */
  datatype Account = Account(server: Option<string>, login: Option<int>, equity: real)

  datatype SymbolInfo = SymbolInfo(
    point: Option<real>,
    volumeMin: Option<real>,
    volumeMax: Option<real>,
    volumeStep: Option<real>,
    fillingMode: Option<int>)

  datatype Tick = Tick(bid: real, ask: real)

  /** How much of an order must be filled at once. */
  datatype Filling = FillOrKill | ImmediateOrCancel | ReturnRest

  datatype Request = Request(
    symbol: string,
    volume: real,
    action: Action,
    price: real,
    deviation: int,
    magic: int,
    comment: string,
    filling: Filling,
    sl: Option<real>,
    tp: Option<real>)

  datatype SendResult = SendResult(retcode: Option<int>, receipt: Receipt)
}
