/** The daily limits over whole runs of one worker: the trade cap, the planned risk of a
    broker day, and the daily loss baseline. */
module DailyLimits {
  import opened Types
  import opened Risk
  import opened Sizing
  import opened AccountKeys
  import opened Pipeline
  import opened Machine
  import opened Safety
  import opened Certified
  import opened Audit
  import opened Guarantees
  import opened SingleConsumer

  // ---- the cap as the code counts it ----

  /** The order's row, once it counts as a trade, and the rows of its account before it that
      started since the midnight of the broker time it was gated with, are within the cap. */
  ghost predicate WithinCap(cfg: Settings, t: Tables, o: Order) {
    && o.exec < |t.execs| && Located(o.seen)
    && (CountsAsTrade(t.execs[o.exec].status) ==>
          && t.execs[o.exec].accountKey == Some(NameOf(o.seen.account.value))
          && exists d :: IsMidnightOf(d, o.seen.brokerNow.value)
               && CountTrades(t.execs[..o.exec + 1], NameOf(o.seen.account.value), d) <= cfg.maxTradesPerDay)
  }

  lemma LedgerWithinCap(cfg: Settings, t: Tables, o: Order)
    requires OrderCertified(cfg, o) && OrderLedger(cfg, t, o) && OrderTold(cfg, t, o)
    ensures WithinCap(cfg, t, o)
  {
    hide Failing, CountTrades, Known, NameOf, IsMidnightOf, OrderRequest, VolumeOf, DayStart, AccountKey;
    OrderLocated(cfg, o);
    LocatedIs(o.seen);
    assert IsMidnightOf(DayStart(o.seen), o.seen.brokerNow.value);
  }

  ghost predicate HasOrderFor(w: World, exec: nat) {
    exists n :: 0 <= n < |w.orders| && w.orders[n].exec == exec
  }

  /** Every counted trade has an order, and every order is within the cap. */
  lemma DailyTradeCap(cfg: Settings, w: World)
    requires Reachable(cfg, 1, w)
    ensures forall n | 0 <= n < |w.orders| :: WithinCap(cfg, w.t, w.orders[n])
    ensures forall e | 0 <= e < |w.t.execs| && CountsAsTrade(w.t.execs[e].status) :: HasOrderFor(w, e)
  {
    hide Run, Reachable, WithinCap, OrderCertified, OrderLedger, OrderTold;
    ReachableKeepsLedger(cfg, w);
    ReachableKeepsTrail(cfg, 1, w);
    ReachableIsCertified(cfg, 1, w);
    forall n | 0 <= n < |w.orders|
      ensures WithinCap(cfg, w.t, w.orders[n])
    {
      assert OrderCertified(cfg, w.orders[n]) && OrderLedger(cfg, w.t, w.orders[n]) && OrderTold(cfg, w.t, w.orders[n]);
      LedgerWithinCap(cfg, w.t, w.orders[n]);
    }
    forall e | 0 <= e < |w.t.execs| && CountsAsTrade(w.t.execs[e].status)
      ensures HasOrderFor(w, e)
    {
      assert TradeHasOrder(w, e, w.t.execs[e].status);
    }
  }

  // ---- the cap per broker day ----

  /** An order as the daily books see it: under the name of its account and at the broker time
      that it was gated with. */
  datatype Entry = Entry(exec: nat, key: string, at: int, filled: bool, loss: real)

  function PlannedLoss(o: Order): real {
    o.request.volume * Abs(o.seen.profit.GetOr(0.0))
  }

  function EntryOf(o: Order): Entry {
    Entry(o.exec, if o.seen.account.Some? then NameOf(o.seen.account.value) else "", o.seen.brokerNow.GetOr(0),
          o.filled, PlannedLoss(o))
  }

  function Book(orders: seq<Order>): (r: seq<Entry>)
    ensures |r| == |orders| && forall i | 0 <= i < |r| :: r[i] == EntryOf(orders[i])
  {
    seq(|orders|, i requires 0 <= i < |orders| => EntryOf(orders[i]))
  }

  /** A trade is early when its attempt started, on the host's clock, before the broker day it
      was gated under: the broker's clock is ahead, or midnight fell between the two readings. */
  datatype Kind = Trades | TimelyTrades | EarlyTrades | UnresolvedFills

  /** Gated under this account and in the broker day that `day` is the midnight of, with an
      execution row of this kind. */
  predicate On(x: Entry, execs: seq<Execution>, key: string, day: int, kind: Kind) {
    && x.exec < |execs| && x.key == key && IsMidnightOf(day, x.at)
    && match kind
       case Trades => CountsAsTrade(execs[x.exec].status)
       case TimelyTrades => CountsAsTrade(execs[x.exec].status) && execs[x.exec].startedAt >= day
       case EarlyTrades => CountsAsTrade(execs[x.exec].status) && execs[x.exec].startedAt < day
       case UnresolvedFills => x.filled && (execs[x.exec].status == Processing || execs[x.exec].status == ReviewRequired)
  }

  function CountOn(book: seq<Entry>, execs: seq<Execution>, key: string, day: int, kind: Kind): nat {
    if book == [] then 0
    else
      var n := |book| - 1;
      CountOn(book[..n], execs, key, day, kind) + if On(book[n], execs, key, day, kind) then 1 else 0
  }

  function CountFills(book: seq<Entry>, key: string, day: int): nat {
    if book == [] then 0
    else
      var n := |book| - 1;
      CountFills(book[..n], key, day) + if book[n].filled && book[n].key == key && IsMidnightOf(day, book[n].at) then 1 else 0
  }

  function LossOn(book: seq<Entry>, execs: seq<Execution>, key: string, day: int): real {
    if book == [] then 0.0
    else
      var n := |book| - 1;
      LossOn(book[..n], execs, key, day) + if On(book[n], execs, key, day, Trades) then book[n].loss else 0.0
  }

  /** The trades gated under a day all started in it on the host's clock. */
  ghost predicate AllTimely(book: seq<Entry>, execs: seq<Execution>, key: string, day: int) {
    forall n | 0 <= n < |book| && On(book[n], execs, key, day, Trades) :: execs[book[n].exec].startedAt >= day
  }

  ghost predicate Ascending(book: seq<Entry>) {
    forall m, n | 0 <= m < n < |book| :: book[m].exec < book[n].exec
  }

  ghost predicate Keyed(book: seq<Entry>, execs: seq<Execution>) {
    forall n | 0 <= n < |book| :: book[n].exec < |execs| && execs[book[n].exec].accountKey == Some(book[n].key)
  }

  ghost predicate Capped(book: seq<Entry>, execs: seq<Execution>, max: int) {
    forall n, d | 0 <= n < |book| && book[n].exec < |execs| && CountsAsTrade(execs[book[n].exec].status)
                  && IsMidnightOf(d, book[n].at) ::
      CountTrades(execs[..book[n].exec + 1], book[n].key, d) <= max
  }

  lemma {:induction false} CountMonotone(execs: seq<Execution>, a: nat, b: nat, key: string, since: int)
    requires a <= b <= |execs|
    ensures CountTrades(execs[..a], key, since) <= CountTrades(execs[..b], key, since)
    decreases b
  {
    if a < b {
      CountMonotone(execs, a, b - 1, key, since);
      assert execs[..b][..b - 1] == execs[..b - 1];
    }
  }

  /** Counting the book is counting its rows. */
  lemma {:induction false} BookWithinRows(book: seq<Entry>, execs: seq<Execution>, key: string, day: int, bound: nat)
    requires Ascending(book) && Keyed(book, execs) && bound <= |execs|
    requires forall n | 0 <= n < |book| :: book[n].exec < bound
    ensures CountOn(book, execs, key, day, TimelyTrades) <= CountTrades(execs[..bound], key, day)
    decreases |book|
  {
    if book != [] {
      var n := |book| - 1;
      var e := book[n].exec;
      assert forall m | 0 <= m < n :: book[..n][m] == book[m];
      BookWithinRows(book[..n], execs, key, day, e);
      assert execs[..e + 1][..e] == execs[..e];
      CountMonotone(execs, e + 1, bound, key, day);
    }
  }

  lemma {:induction false} CapFromLast(book: seq<Entry>, execs: seq<Execution>, key: string, day: int, max: int)
    requires max >= 0 && Ascending(book) && Keyed(book, execs) && Capped(book, execs, max)
    ensures CountOn(book, execs, key, day, TimelyTrades) <= max
    decreases |book|
  {
    if book != [] {
      var n := |book| - 1;
      if On(book[n], execs, key, day, TimelyTrades) {
        BookWithinRows(book, execs, key, day, book[n].exec + 1);
      } else {
        assert forall m | 0 <= m < n :: book[..n][m] == book[m];
        CapFromLast(book[..n], execs, key, day, max);
      }
    }
  }

  lemma {:induction false} TradesSplit(book: seq<Entry>, execs: seq<Execution>, key: string, day: int)
    ensures CountOn(book, execs, key, day, Trades) ==
      CountOn(book, execs, key, day, TimelyTrades) + CountOn(book, execs, key, day, EarlyTrades)
    decreases |book|
  {
    if book != [] {
      TradesSplit(book[..|book| - 1], execs, key, day);
    }
  }

  lemma {:induction false} NoneEarly(book: seq<Entry>, execs: seq<Execution>, key: string, day: int)
    ensures CountOn(book, execs, key, day, EarlyTrades) == 0 <==> AllTimely(book, execs, key, day)
    decreases |book|
  {
    if book != [] {
      var n := |book| - 1;
      assert forall m | 0 <= m < n :: book[..n][m] == book[m];
      NoneEarly(book[..n], execs, key, day);
    }
  }

  lemma CapWithEarly(book: seq<Entry>, execs: seq<Execution>, key: string, day: int, max: int)
    requires max >= 0 && Ascending(book) && Keyed(book, execs) && Capped(book, execs, max)
    ensures CountOn(book, execs, key, day, Trades) <= max + CountOn(book, execs, key, day, EarlyTrades)
  {
    CapFromLast(book, execs, key, day, max);
    TradesSplit(book, execs, key, day);
  }

  lemma BookIsAscending(cfg: Settings, w: World)
    requires Ledger(cfg, w)
    ensures Ascending(Book(w.orders))
  {
  }

  lemma BookIsKeyed(cfg: Settings, w: World)
    requires Trail(cfg, w) && AllCertified(cfg, w)
    ensures Keyed(Book(w.orders), w.t.execs)
  {
    hide NameOf, Known, OrderCertified, AccountKey;
    forall n | 0 <= n < |w.orders|
      ensures var e := EntryOf(w.orders[n]); e.exec < |w.t.execs| && w.t.execs[e.exec].accountKey == Some(e.key)
    {
      var o := w.orders[n];
      assert OrderTold(cfg, w.t, o) && OrderCertified(cfg, o);
      OrderLocated(cfg, o);
      LocatedIs(o.seen);
    }
  }

  lemma EntryIsCapped(cfg: Settings, t: Tables, o: Order, d: int)
    requires OrderCertified(cfg, o) && OrderLedger(cfg, t, o) && CountsAsTrade(t.execs[o.exec].status)
    requires IsMidnightOf(d, EntryOf(o).at)
    ensures CountTrades(t.execs[..o.exec + 1], EntryOf(o).key, d) <= cfg.maxTradesPerDay
  {
    hide NameOf, Known, OrderCertified, AccountKey, IsMidnightOf, CountTrades, DayStart;
    OrderLocated(cfg, o);
    LocatedIs(o.seen);
  }

  lemma BookIsCapped(cfg: Settings, w: World)
    requires Ledger(cfg, w) && AllCertified(cfg, w)
    ensures Capped(Book(w.orders), w.t.execs, cfg.maxTradesPerDay)
  {
    hide EntryOf, OrderCertified, IsMidnightOf, CountTrades;
    var book := Book(w.orders);
    forall n, d | 0 <= n < |book| && book[n].exec < |w.t.execs| && CountsAsTrade(w.t.execs[book[n].exec].status)
                  && IsMidnightOf(d, book[n].at)
      ensures CountTrades(w.t.execs[..book[n].exec + 1], book[n].key, d) <= cfg.maxTradesPerDay
    {
      assert OrderCertified(cfg, w.orders[n]) && OrderLedger(cfg, w.t, w.orders[n]);
      assert book[n].exec == w.orders[n].exec by {
        EntryRow(w.orders[n]);
      }
      EntryIsCapped(cfg, w.t, w.orders[n], d);
    }
  }

  lemma EntryRow(o: Order)
    ensures EntryOf(o).exec == o.exec
  {
  }

  lemma BookFacts(cfg: Settings, w: World)
    requires Reachable(cfg, 1, w)
    ensures var book := Book(w.orders);
      Ascending(book) && Keyed(book, w.t.execs) && Capped(book, w.t.execs, cfg.maxTradesPerDay)
  {
    hide *;
    ReachableKeepsLedger(cfg, w);
    ReachableKeepsTrail(cfg, 1, w);
    ReachableIsCertified(cfg, 1, w);
    BookIsAscending(cfg, w);
    BookIsKeyed(cfg, w);
    BookIsCapped(cfg, w);
  }

  /** Counted trades of an account and broker day exceed the cap at most by the early ones. */
  lemma CapPerBrokerDay(cfg: Settings, w: World, key: string, day: int)
    requires Reachable(cfg, 1, w) && cfg.maxTradesPerDay >= 1
    ensures CountOn(Book(w.orders), w.t.execs, key, day, Trades) <=
      cfg.maxTradesPerDay + CountOn(Book(w.orders), w.t.execs, key, day, EarlyTrades)
  {
    hide *;
    BookFacts(cfg, w);
    CapWithEarly(Book(w.orders), w.t.execs, key, day, cfg.maxTradesPerDay);
  }

  /** For each counted trade of the day the broker's time that gated it is not later than the
      start of its attempt on the host's clock. */
  ghost predicate BrokerNotAhead(w: World, key: string, day: int) {
    forall n | 0 <= n < |w.orders| && On(EntryOf(w.orders[n]), w.t.execs, key, day, Trades) ::
      w.orders[n].seen.brokerNow.Some? ==> w.orders[n].seen.brokerNow.value <= w.t.execs[w.orders[n].exec].startedAt
  }

  lemma NotAheadIsTimely(cfg: Settings, w: World, key: string, day: int)
    requires AllCertified(cfg, w) && BrokerNotAhead(w, key, day)
    ensures AllTimely(Book(w.orders), w.t.execs, key, day)
  {
    hide NameOf, Known, OrderCertified;
    forall n | 0 <= n < |w.orders| && On(EntryOf(w.orders[n]), w.t.execs, key, day, Trades)
      ensures w.t.execs[w.orders[n].exec].startedAt >= day
    {
      assert OrderCertified(cfg, w.orders[n]);
      OrderLocated(cfg, w.orders[n]);
    }
  }

  /** The cap holds per broker day as long as the broker's readings are not ahead. */
  lemma CapWhenBrokerNotAhead(cfg: Settings, w: World, key: string, day: int)
    requires Reachable(cfg, 1, w) && cfg.maxTradesPerDay >= 1 && BrokerNotAhead(w, key, day)
    ensures CountOn(Book(w.orders), w.t.execs, key, day, Trades) <= cfg.maxTradesPerDay
  {
    hide *;
    CapPerBrokerDay(cfg, w, key, day);
    ReachableIsCertified(cfg, 1, w);
    NotAheadIsTimely(cfg, w, key, day);
    NoneEarly(Book(w.orders), w.t.execs, key, day);
  }

  // ---- true fills ----

  predicate ShowsFill(s: Status) {
    CountsAsTrade(s) || s == Processing || s == ReviewRequired
  }

  /** A filled order's row says so, or is unresolved. */
  ghost predicate FillsShown(book: seq<Entry>, execs: seq<Execution>) {
    forall n | 0 <= n < |book| && book[n].filled :: book[n].exec < |execs|
      && ShowsFill(execs[book[n].exec].status)
  }

  lemma {:induction false} FillsAreAccountedFor(book: seq<Entry>, execs: seq<Execution>, key: string, day: int)
    requires FillsShown(book, execs)
    ensures CountFills(book, key, day) <=
      CountOn(book, execs, key, day, Trades) + CountOn(book, execs, key, day, UnresolvedFills)
    decreases |book|
  {
    if book != [] {
      var n := |book| - 1;
      assert forall m | 0 <= m < n :: book[..n][m] == book[m];
      FillsAreAccountedFor(book[..n], execs, key, day);
    }
  }

  lemma FillIsShown(cfg: Settings, t: Tables, o: Order)
    requires OrderTold(cfg, t, o) && MayFill(o.result)
    ensures ShowsFill(t.execs[o.exec].status)
  {
  }

  lemma AllFillsShown(cfg: Settings, w: World)
    requires Trail(cfg, w) && FillsHonestly(w.orders)
    ensures FillsShown(Book(w.orders), w.t.execs)
  {
    forall n | 0 <= n < |w.orders| && w.orders[n].filled
      ensures w.orders[n].exec < |w.t.execs|
      ensures ShowsFill(w.t.execs[w.orders[n].exec].status)
    {
      FillIsShown(cfg, w.t, w.orders[n]);
    }
  }

  /** The broker's fills of a day exceed the cap at most by the early trades and by the filled
      attempts whose row was left PROCESSING or REVIEW_REQUIRED. */
  lemma FillsPerBrokerDay(cfg: Settings, w: World, key: string, day: int)
    requires Reachable(cfg, 1, w) && cfg.maxTradesPerDay >= 1 && FillsHonestly(w.orders)
    ensures CountFills(Book(w.orders), key, day) <=
      cfg.maxTradesPerDay + CountOn(Book(w.orders), w.t.execs, key, day, EarlyTrades)
      + CountOn(Book(w.orders), w.t.execs, key, day, UnresolvedFills)
  {
    hide *;
    CapPerBrokerDay(cfg, w, key, day);
    ReachableKeepsTrail(cfg, 1, w);
    AllFillsShown(cfg, w);
    FillsAreAccountedFor(Book(w.orders), w.t.execs, key, day);
  }

  /** Closing an executed attempt takes a slot of the day it was gated under exactly when the
      attempt had not started before that day on the host clock. */
  lemma SlotTakenExactlyWhenTimely(cfg: Settings, w: World, a: Answer)
    requires Reachable(cfg, 1, w)
    ensures |w.workers| == 1
    ensures (w.workers[0].Running? && w.workers[0].step.FinishExec? && CountsAsTrade(OutcomeStatus(w.workers[0].job.outcome)) ==>
            TakesSlot(w.t, Apply(cfg, w, Advance(0, a)).t, w.workers[0].job))
  {
    hide Run, Initial, Reachable, Failing, Known, NameOf, TakesSlot, Apply, AccountKey, Queue, Orders, Exposed, Traced;
    ReachableIsSafe(cfg, 1, w);
    ReachableKeepsLedger(cfg, w);
    ReachableKeepsTrail(cfg, 1, w);
    ReachableIsCertified(cfg, 1, w);
    if w.workers[0].Running? && w.workers[0].step.FinishExec? && CountsAsTrade(OutcomeStatus(w.workers[0].job.outcome)) {
      var s, j := w.workers[0].step, w.workers[0].job;
      assert PhaseOk(w, w.workers[0]) && AttemptOpen(w, s, j) && JobTells(cfg, w.t, s, j) && JobCertified(cfg, s, j);
      JobIsLocated(cfg, s, j);
      ClosingCount(w.t, j, a.finishedAt);
      FinishExecMove(cfg, w, 0, a);
    }
  }

  ghost predicate TakesSlot(t: Tables, q: Tables, j: Job) {
    && j.exec < |t.execs| && Located(j.seen)
    && var key := NameOf(j.seen.account.value);
    exists d :: IsMidnightOf(d, j.seen.brokerNow.value)
      && CountTrades(q.execs, key, d) == CountTrades(t.execs, key, d) + if t.execs[j.exec].startedAt >= d then 1 else 0
  }

  function Closing(j: Job, at: int): Effect {
    UpdateExec(j.exec, FinishFields(OutcomeStatus(j.outcome), at, OutcomeReceipt(j.outcome)))
  }

  lemma FinishExecMove(cfg: Settings, w: World, k: nat, a: Answer)
    requires k < |w.workers| && w.workers[k].Running? && w.workers[k].step.FinishExec?
    requires w.workers[k].job.row < |w.t.signals|
    ensures Apply(cfg, w, Advance(k, a)).t == PerformOn(w.t, Closing(w.workers[k].job, a.finishedAt))
  {
  }

  lemma JobIsLocated(cfg: Settings, s: Step, j: Job)
    requires JobCertified(cfg, s, j) && j.outcome.Sent?
    ensures Located(j.seen) && j.seen.key == AccountKey(j.seen)
  {
    PassedLocates(cfg, j.payload, j.seen, GATES);
  }

  lemma ClosingCount(t: Tables, j: Job, at: int)
    requires j.exec + 1 == |t.execs| && t.execs[j.exec].status == Processing
    requires t.execs[j.exec].accountKey == Some(Key(j.seen)) && CountsAsTrade(OutcomeStatus(j.outcome))
    requires Located(j.seen) && j.seen.key == AccountKey(j.seen)
    ensures TakesSlot(t, PerformOn(t, Closing(j, at)), j)
  {
    hide Known, NameOf, IsMidnightOf, AccountKey;
    LocatedIs(j.seen);
    assert IsMidnightOf(DayStart(j.seen), j.seen.brokerNow.value);
    CountLast(t.execs, Patch(t.execs[j.exec], Closing(j, at).fields), Key(j.seen), DayStart(j.seen));
  }

  // ---- recovered trades ----

  /** No run writes RECOVERED_EXECUTED into the executions table, so the third status of the
      SQL filter never matches. */
  lemma RecoveryStaysOutOfExecutions(cfg: Settings, n: nat, w: World)
    requires Reachable(cfg, n, w)
    ensures forall e | 0 <= e < |w.t.execs| :: w.t.execs[e].status != RecoveredExecuted
  {
    ReachableKeepsTrail(cfg, n, w);
    forall e | 0 <= e < |w.t.execs|
      ensures w.t.execs[e].status != RecoveredExecuted
    {
      assert TradeHasOrder(w, e, w.t.execs[e].status);
    }
  }

  /** Whether an order takes a slot of the daily count, whatever recovery makes of its signal:
      if and only if the attempt had made the final update of its row before it died, and the
      broker had reported a fill. */
  predicate CountedExactly(t: Tables, o: Order) {
    && o.exec < |t.execs|
    && (CountsAsTrade(t.execs[o.exec].status) <==>
          t.execs[o.exec].finishedAt.Some? && (Coded(o.result, RETCODE_DONE) || Coded(o.result, RETCODE_DONE_PARTIAL)))
  }

  lemma RecoveredTradeCounts(cfg: Settings, n: nat, w: World)
    requires Reachable(cfg, n, w)
    ensures forall i | 0 <= i < |w.orders| :: CountedExactly(w.t, w.orders[i])
  {
    hide Run, Initial, Reachable;
    ReachableKeepsTrail(cfg, n, w);
    forall i | 0 <= i < |w.orders|
      ensures CountedExactly(w.t, w.orders[i])
    {
      assert OrderTold(cfg, w.t, w.orders[i]);
    }
  }

  // ---- planned risk of a day ----

  /** The share of the equity that one order may risk. */
  function MaxRisk(cfg: Settings, equity: real): real {
    equity * (cfg.maxRiskPercent / 100.0)
  }

  /** The symbol's volume step, or its default, is a multiple of 1e-8. */
  ghost predicate StepOnGrid(o: Order) {
    o.seen.info.Some? && OnGrid(o.seen.info.value.volumeStep.GetOr(0.01))
  }

  lemma PlannedWithinAllowed(cfg: Settings, o: Order)
    requires LimitsCertified(cfg, o) && StepOnGrid(o)
    ensures PlannedLoss(o) <= AllowedLoss(o.seen.account.value.equity, o.payload.riskPercent)
  {
    hide CalculateVolume, OnGrid, AllowedLoss;
    var p, s := o.payload, o.seen;
    var info := s.info.value;
    OvershootBound(s.profit, if p.action == Buy then s.tick.value.ask else s.tick.value.bid, p.stopLoss, s.account.value.equity,
                   p.riskPercent, info.volumeMin.GetOr(0.01), info.volumeMax.GetOr(100.0), info.volumeStep.GetOr(0.01));
  }

  lemma RiskShare(e: real, risk: real, max: real)
    requires 0.0 < risk <= max
    ensures AllowedLoss(e, risk) <= AllowedLoss(e, max) || AllowedLoss(e, risk) <= 0.0
  {
    var r, m := risk / 100.0, max / 100.0;
    if e >= 0.0 {
      MulMonotone(r, m, e);
    } else {
      MulMonotone(e, 0.0, r);
    }
  }

  /** One order on a grid step plans at most its equity's share of the maximal risk. */
  lemma PlannedLossBound(cfg: Settings, o: Order, each: real)
    requires LimitsCertified(cfg, o) && StepOnGrid(o)
    requires MaxRisk(cfg, o.seen.account.value.equity) <= each && 0.0 <= each
    ensures PlannedLoss(o) <= each
  {
    PlannedWithinAllowed(cfg, o);
    RiskShare(o.seen.account.value.equity, o.payload.riskPercent, cfg.maxRiskPercent);
  }

  ghost predicate LossesWithin(book: seq<Entry>, execs: seq<Execution>, key: string, day: int, each: real) {
    forall n | 0 <= n < |book| && On(book[n], execs, key, day, Trades) :: book[n].loss <= each
  }

  lemma {:induction false} SumBound(book: seq<Entry>, execs: seq<Execution>, key: string, day: int, each: real)
    requires LossesWithin(book, execs, key, day, each)
    ensures LossOn(book, execs, key, day) <= CountOn(book, execs, key, day, Trades) as real * each
    decreases |book|
  {
    if book != [] {
      var n := |book| - 1;
      assert forall m | 0 <= m < n :: book[..n][m] == book[m];
      SumBound(book[..n], execs, key, day, each);
      OneMore(CountOn(book[..n], execs, key, day, Trades), each);
    }
  }

  lemma OneMore(c: nat, b: real)
    ensures (c + 1) as real * b == c as real * b + b
  {
    assert (c as real + 1.0) * b == c as real * b + b;
  }

  lemma TimesMonotone(a: int, b: int, each: real)
    requires a <= b && 0.0 <= each
    ensures a as real * each <= b as real * each
  {
    MulMonotone(a as real, b as real, each);
  }

  lemma SumWithinCap(book: seq<Entry>, execs: seq<Execution>, key: string, day: int, each: real, bound: int)
    requires 0.0 <= each && CountOn(book, execs, key, day, Trades) <= bound
    requires LossesWithin(book, execs, key, day, each)
    ensures LossOn(book, execs, key, day) <= bound as real * each
  {
    hide *;
    SumBound(book, execs, key, day, each);
    TimesMonotone(CountOn(book, execs, key, day, Trades), bound, each);
  }

  /** The day's trades of the account were sized on grid steps, and none of their equities'
      shares of the maximal risk is above `each`. */
  ghost predicate RiskInputs(cfg: Settings, w: World, key: string, day: int, each: real) {
    forall n | 0 <= n < |w.orders| && On(EntryOf(w.orders[n]), w.t.execs, key, day, Trades) ::
      && StepOnGrid(w.orders[n]) && w.orders[n].seen.account.Some?
      && MaxRisk(cfg, w.orders[n].seen.account.value.equity) <= each
  }

  lemma BookLosses(cfg: Settings, w: World, key: string, day: int, each: real)
    requires AllCertified(cfg, w) && RiskInputs(cfg, w, key, day, each) && 0.0 <= each
    ensures LossesWithin(Book(w.orders), w.t.execs, key, day, each)
  {
    hide CalculateVolume, OnGrid, MaxRisk;
    forall n | 0 <= n < |w.orders| && On(EntryOf(w.orders[n]), w.t.execs, key, day, Trades)
      ensures PlannedLoss(w.orders[n]) <= each
    {
      assert OrderCertified(cfg, w.orders[n]);
      LimitsHold(cfg, w.orders[n]);
      PlannedLossBound(cfg, w.orders[n], each);
    }
  }

  lemma WithinBudget(book: seq<Entry>, execs: seq<Execution>, key: string, day: int, each: real, max: int)
    requires 0.0 <= each && max >= 0 && Ascending(book) && Keyed(book, execs) && Capped(book, execs, max)
    requires LossesWithin(book, execs, key, day, each)
    ensures LossOn(book, execs, key, day) <= (max + CountOn(book, execs, key, day, EarlyTrades)) as real * each
  {
    CapWithEarly(book, execs, key, day, max);
    SumWithinCap(book, execs, key, day, each, max + CountOn(book, execs, key, day, EarlyTrades));
  }

  /** The planned losses of the trades counted under one day start sum to at most the cap, and
      the early trades if there are any, times the largest risk share among them. */
  lemma RiskPerBrokerDay(cfg: Settings, w: World, key: string, day: int, each: real)
    requires Reachable(cfg, 1, w) && cfg.maxTradesPerDay >= 1
    requires 0.0 <= each && RiskInputs(cfg, w, key, day, each)
    ensures LossOn(Book(w.orders), w.t.execs, key, day) <=
      (cfg.maxTradesPerDay + CountOn(Book(w.orders), w.t.execs, key, day, EarlyTrades)) as real * each
  {
    hide *;
    BookFacts(cfg, w);
    ReachableIsCertified(cfg, 1, w);
    BookLosses(cfg, w, key, day, each);
    WithinBudget(Book(w.orders), w.t.execs, key, day, each, cfg.maxTradesPerDay);
  }

  // ---- the daily loss baseline ----

  /** A stored baseline is never changed or removed, by any event and any number of workers. */
  lemma BaselineWrittenOnce(cfg: Settings, w: World, e: Event, b: BaselineKey)
    requires b in w.t.baselines
    ensures b in Apply(cfg, w, e).t.baselines && Apply(cfg, w, e).t.baselines[b] == w.t.baselines[b]
  {
    if !e.Submit? && !e.PositionClosed? && e.k < |w.workers| {
      var f := Choose(cfg, w, e).effect;
      assert Apply(cfg, w, e).t == PerformOn(w.t, f);
    }
  }

  /** The baseline is written by an attempt behind the position gate only, under its own
      account and broker day, with its own equity, and where none was stored. */
  ghost predicate FirstBaseline(cfg: Settings, w: World, v: World, e: Event) {
    e.Advance? && e.k < |w.workers| && w.workers[e.k].Running? && w.workers[e.k].step.WriteBaseline?
    && (var j := w.workers[e.k].job;
        && PassedBelow(Failing(cfg, j.payload, j.seen), 14) && Located(j.seen)
        && DailyKey(j.seen) !in w.t.baselines
        && v.t.baselines == w.t.baselines[DailyKey(j.seen) := j.seen.account.value.equity])
  }

  lemma BaselineOnlyBehindTheGates(cfg: Settings, n: nat, w: World, e: Event)
    requires Reachable(cfg, n, w)
    ensures var v := Apply(cfg, w, e);
      v.t.baselines == w.t.baselines || FirstBaseline(cfg, w, v, e)
  {
    hide Reachable, Apply, Decide, Failing, Consistent, Queue, Attempts, Orders, Coupled, Exposed, Traced, OrderCertified;
    ReachableIsSafe(cfg, n, w);
    ReachableIsCertified(cfg, n, w);
    if Apply(cfg, w, e).t.baselines != w.t.baselines {
      ChangesBaseline(cfg, w, e);
      var s, j := w.workers[e.k].step, w.workers[e.k].job;
      assert PhaseOk(w, w.workers[e.k]) && JobCertified(cfg, s, j);
      StoresBaseline(cfg, w.t, s, j, e.answer);
    }
  }

  lemma ChangesBaseline(cfg: Settings, w: World, e: Event)
    requires Apply(cfg, w, e).t.baselines != w.t.baselines
    ensures e.Advance? && e.k < |w.workers| && w.workers[e.k].Running? && w.workers[e.k].job.row < |w.t.signals|
    ensures var f := Decide(cfg, w.t, w.workers[e.k].step, w.workers[e.k].job, e.answer).effect;
      f.StoreBaseline? && f.key !in w.t.baselines && Apply(cfg, w, e).t.baselines == w.t.baselines[f.key := f.equity]
  {
    hide Decide;
  }

  lemma StoresBaseline(cfg: Settings, t: Tables, s: Step, j: Job, a: Answer)
    requires j.row < |t.signals| && Decide(cfg, t, s, j, a).effect.StoreBaseline?
    requires JobCertified(cfg, s, j) && OutcomeOk(s, j.outcome)
    ensures s.WriteBaseline? && PassedBelow(Failing(cfg, j.payload, j.seen), 14) && Located(j.seen)
    ensures Decide(cfg, t, s, j, a).effect == StoreBaseline(DailyKey(j.seen), j.seen.account.value.equity)
  {
    BaselineEffect(cfg, t, s, j, a);
    hide Decide, Failing, Known, NameOf;
    PassedLocates(cfg, j.payload, j.seen, 14);
    LocatedIs(j.seen);
  }

  lemma BaselineEffect(cfg: Settings, t: Tables, s: Step, j: Job, a: Answer)
    requires j.row < |t.signals| && Decide(cfg, t, s, j, a).effect.StoreBaseline? && OutcomeOk(s, j.outcome)
    ensures s.WriteBaseline? && Decide(cfg, t, s, j, a).effect == StoreBaseline(BaselineKeyOf(j.seen), Equity(j.seen))
  {
    hide FirstIn, Failing;
  }

  /** The stored baseline of the order's account and day is positive, and the equity loss
      against it is below the limit. */
  predicate GuardedByStored(cfg: Settings, t: Tables, o: Order) {
    && Located(o.seen) && DailyKey(o.seen) in t.baselines
    && var b := t.baselines[DailyKey(o.seen)];
    && b > 0.0 && (b - o.seen.account.value.equity) / b * 100.0 < cfg.maxDailyLossPercent
  }

  lemma StoredGuard(cfg: Settings, t: Tables, o: Order)
    requires OrderLedger(cfg, t, o) && OrderCertified(cfg, o)
    ensures GuardedByStored(cfg, t, o)
  {
    hide CountTrades, OrderCertified, Known, NameOf, CalculateVolume, OrderRequest;
    OrderLocated(cfg, o);
    LocatedIs(o.seen);
    LimitsHold(cfg, o);
  }

  /** Every order was guarded by the baseline that is stored for its account and day. */
  lemma LossGuardUsesStoredBaseline(cfg: Settings, w: World, i: nat)
    requires Reachable(cfg, 1, w)
    ensures i < |w.orders| ==> GuardedByStored(cfg, w.t, w.orders[i])
  {
    ReachableKeepsLedger(cfg, w);
    ReachableIsCertified(cfg, 1, w);
    if i < |w.orders| {
      StoredGuard(cfg, w.t, w.orders[i]);
    }
  }
}
