/** What holds in every run, for any number of workers. */
module Guarantees {
  import opened Types
  import opened Risk
  import opened Sizing
  import opened AccountKeys
  import opened Pipeline
  import opened Machine
  import opened Safety
  import opened Certified
  import opened Audit
  import opened Effects
  import opened Intake

  // ---- at most one order per signal ----

  ghost predicate OncePerSignal(orders: seq<Order>) {
    forall i, j | 0 <= i < j < |orders| :: orders[i].payload.id != orders[j].payload.id
  }

  /** The order's row left PENDING by exactly one claim. */
  predicate ClaimedOnce(t: Tables, o: Order) {
    o.row < |t.signals| && t.signals[o.row].payload == o.payload
    && t.signals[o.row].status != Pending && t.signals[o.row].attempts == 1
  }

  /** The broker's log never holds two orders for one signal id, and every order belongs to
      a row that was claimed exactly once and is no longer pending. */
  lemma AtMostOnceSend(tag: string -> string, n: nat, w: World)
    requires ReachableUnder(tag, n, w)
    ensures OncePerSignal(w.orders)
    ensures forall i | 0 <= i < |w.orders| :: ClaimedOnce(w.t, w.orders[i])
  {
    ReachableIsSafeUnder(tag, n, w);
    forall i | 0 <= i < |w.orders|
      ensures OrderOk(w, w.orders[i]) && RowOk(w.t.signals[w.orders[i].row], true)
    {
      assert OrderOk(w, w.orders[i]);
      assert RowOk(w.t.signals[w.orders[i].row], w.orders[i].row < |w.claims|);
    }
    forall i, j | 0 <= i < j < |w.orders|
      ensures w.orders[i].payload.id != w.orders[j].payload.id
    {
      var a, b := w.orders[i].row, w.orders[j].row;
      assert a != b;
      assert w.t.signals[a].payload.id != w.t.signals[b].payload.id;
    }
  }

  /** When an order goes out, the tables already hold the claim and the execution row. */
  lemma ClaimIsDurableBeforeSend(cfg: Settings, n: nat, w: World, e: Event)
    requires Reachable(cfg, n, w)
    ensures var v := Apply(cfg, w, e);
      |v.orders| > |w.orders| ==>
        var o := v.orders[|w.orders|];
        && v.orders == w.orders + [o] && v.t == w.t
        && o.row < |w.t.signals| && w.t.signals[o.row].status != Pending && w.t.signals[o.row].attempts == 1
        && o.exec < |w.t.execs| && w.t.execs[o.exec].signal == o.row && w.t.execs[o.exec].status == Processing
        && forall i | 0 <= i < |w.orders| :: w.orders[i].row != o.row
  {
    ReachableIsSafe(cfg, n, w);
    if !e.Submit? && !e.PositionClosed? && e.k < |w.workers| && Choose(cfg, w, e).effect.SendOrder? {
      ChooseLegal(cfg, w, e);
      var was := w.workers[e.k];
      assert PhaseOk(w, was) && AttemptOpen(w, was.step, was.job) && Remembers(w, e.k);
      assert RowOk(w.t.signals[was.job.row], was.job.row < |w.claims|);
    }
  }

  // ---- first in, first out ----

  /** Claims follow id order without gaps or repetition. */
  lemma ClaimsAreFifo(tag: string -> string, n: nat, w: World)
    requires ReachableUnder(tag, n, w)
    ensures forall i | 0 <= i < |w.claims| :: w.claims[i] == i
    ensures forall i, j | 0 <= i < j < |w.t.signals| && w.t.signals[j].status != Pending :: w.t.signals[i].status != Pending
    ensures forall i | 0 <= i < |w.t.signals| :: w.t.signals[i].status == Pending <==> i !in w.claims
  {
    ReachableIsSafeUnder(tag, n, w);
    forall i | 0 <= i < |w.t.signals|
      ensures RowOk(w.t.signals[i], i < |w.claims|)
      ensures i in w.claims <==> i < |w.claims|
    {
      assert i < |w.claims| ==> w.claims[i] == i;
    }
  }

  ghost predicate ClaimedLeast(w: World, v: World) {
    v.claims == w.claims
    || exists i :: v.claims == w.claims + [i] && LeastPending(w.t.signals, 0) == Some(i) && i !in w.claims
  }

  lemma ClaimMove(w: World, k: nat, m: Move)
    requires Queue(w) && Workers(w) && k < |w.workers| && Legal(w, k, m)
    ensures ClaimedLeast(w, Perform(w, k, m))
  {
    if m.effect.ClaimRow? {
      var i, n := m.effect.row, |w.claims|;
      assert PhaseOk(w, w.workers[k]) && RowOk(w.t.signals[i], i < n);
      var r := LeastPending(w.t.signals, 0);
      assert RowOk(w.t.signals[r.value], r.value < n);
      assert r == Some(i) && i !in w.claims;
    }
  }

  /** A guarded claim, however long after its select, takes the least pending row, and a
      pending row is claimed by one worker only. */
  lemma ClaimTakesLeastPending(cfg: Settings, n: nat, w: World, e: Event)
    requires Reachable(cfg, n, w)
    ensures ClaimedLeast(w, Apply(cfg, w, e))
  {
    ReachableIsSafe(cfg, n, w);
    if !e.Submit? && !e.PositionClosed? && e.k < |w.workers| {
      ChooseLegal(cfg, w, e);
      ClaimMove(w, e.k, Choose(cfg, w, e));
    }
  }

  // ---- exposure ----

  /** The broker fills only on these results, or when no result came back. */
  predicate MayFill(result: Option<SendResult>) {
    result.None? || result.value.retcode == Some(RETCODE_DONE)
    || result.value.retcode == Some(RETCODE_DONE_PARTIAL) || result.value.retcode == Some(RETCODE_PLACED)
  }

  ghost predicate FillsHonestly(orders: seq<Order>) {
    forall i | 0 <= i < |orders| && orders[i].filled :: MayFill(orders[i].result)
  }

  predicate ShowsExposure(s: Status) {
    s == Executed || s == ExecutedPartial || s == RecoveredExecuted || s == ReviewRequired
  }

  predicate ExposureShown(t: Tables, row: nat) {
    row < |t.signals| && (Settled(t.signals[row].status) ==> ShowsExposure(t.signals[row].status))
  }

  /** A filled signal that is settled at all shows exposure, wherever the process died. */
  lemma NoLostExposure(tag: string -> string, n: nat, w: World)
    requires ReachableUnder(tag, n, w)
    ensures FillsHonestly(w.orders) ==> forall i | 0 <= i < |w.orders| && w.orders[i].filled :: ExposureShown(w.t, w.orders[i].row)
  {
    ReachableIsSafeUnder(tag, n, w);
    forall i | 0 <= i < |w.orders|
      ensures OrderOk(w, w.orders[i])
    {
    }
  }

  ghost predicate Filled(w: World, row: nat) {
    exists i :: 0 <= i < |w.orders| && w.orders[i].row == row && w.orders[i].filled
  }

  predicate Coded(result: Option<SendResult>, code: int) {
    result.Some? && result.value.retcode == Some(code)
  }

  /** DONE and DONE_PARTIAL are honest. */
  ghost predicate HonestCodes(w: World) {
    forall i | 0 <= i < |w.orders| ::
      Coded(w.orders[i].result, RETCODE_DONE) || Coded(w.orders[i].result, RETCODE_DONE_PARTIAL) ==> w.orders[i].filled
  }

  /** What the broker said to the order of a signal that has one of these statuses. */
  predicate SaidFor(result: Option<SendResult>, status: Status) {
    match status
    case Executed => Coded(result, RETCODE_DONE)
    case ExecutedPartial => Coded(result, RETCODE_DONE_PARTIAL)
    case FailedOrderSend =>
      result.Some? && !Coded(result, RETCODE_DONE) && !Coded(result, RETCODE_DONE_PARTIAL) && !Coded(result, RETCODE_PLACED)
    case _ => true
  }

  ghost predicate HasOrderSaid(w: World, row: nat, status: Status) {
    exists n :: 0 <= n < |w.orders| && w.orders[n].row == row && SaidFor(w.orders[n].result, status)
  }

  /** What an execution row tells of the order sent under it: nothing before the final update,
      and after it the status, the code and the tickets that the broker's result calls for. */
  predicate ReceiptFits(x: Execution, result: Option<SendResult>) {
    if x.finishedAt.None? then x.status == Processing && x.receipt == NO_RECEIPT
    else if Coded(result, RETCODE_DONE) then x.status == Executed && x.sendCode == Some(10009) && x.receipt == result.value.receipt
    else if Coded(result, RETCODE_DONE_PARTIAL) then
      x.status == ExecutedPartial && x.sendCode == Some(10010) && x.receipt == result.value.receipt
    else if Coded(result, RETCODE_PLACED) then
      && x.status == ReviewRequired && x.sendCode == Some(10008)
      && x.receipt == Receipt(result.value.receipt.order, result.value.receipt.deal, None, None)
    else if result.None? then x.status == ReviewRequired && x.sendCode == None && x.receipt == NO_RECEIPT
    else x.status == FailedOrderSend && x.sendCode == result.value.retcode && x.receipt == NO_RECEIPT
  }

  /** In every run the row of every order keeps exactly what the broker's result calls for. */
  lemma ReceiptKept(cfg: Settings, n: nat, w: World, i: nat)
    requires Reachable(cfg, n, w)
    ensures i < |w.orders| ==>
      w.orders[i].exec < |w.t.execs| && ReceiptFits(w.t.execs[w.orders[i].exec], w.orders[i].result)
  {
    hide Run, Initial, Reachable;
    ReachableKeepsTrail(cfg, n, w);
    if i < |w.orders| {
      assert OrderTold(cfg, w.t, w.orders[i]);
    }
  }

  /** A signal is EXECUTED, EXECUTED_PARTIAL or FAILED_ORDER_SEND only by the order sent for it
      and the code the broker returned. */
  lemma SettledByResult(cfg: Settings, n: nat, w: World, i: nat)
    requires Reachable(cfg, n, w)
    ensures i < |w.t.signals| && SendOnly(w.t.signals[i].status) ==> HasOrderSaid(w, i, w.t.signals[i].status)
  {
    hide Run, Apply, Initial, Reachable, Queue, Workers, Attempts, Orders, Coupled, Exposed, HasLookup;
    ReachableIsSafe(cfg, n, w);
    if i < |w.t.signals| && SendOnly(w.t.signals[i].status) {
      assert RowTraced(cfg, w, i, w.t.signals[i]);
      var k :| 0 <= k < |w.orders| && w.orders[k].row == i && SendStatus(w.orders[k].result) == w.t.signals[i].status;
      assert SaidFor(w.orders[k].result, w.t.signals[i].status);
    }
  }

  ghost predicate DealOfOrder(w: World, comment: string) {
    exists i :: 0 <= i < |w.orders| && w.orders[i].filled && w.orders[i].request.comment == comment
  }

  ghost predicate TagOfSubmitted(cfg: Settings, w: World, comment: string) {
    exists i :: 0 <= i < |w.t.signals| && cfg.tag(w.t.signals[i].payload.id) == comment
  }

  /** A deal in an answered history is a fill of some order of the bridge, or foreign and then
      without the tag of a submitted signal. */
  ghost predicate HonestHistory(cfg: Settings, w: World) {
    forall l, c | 0 <= l < |w.lookups| && c in w.lookups[l].deals ::
      DealOfOrder(w, c) || !TagOfSubmitted(cfg, w, c)
  }

  ghost predicate TagsInjective(cfg: Settings, w: World) {
    forall i, j | 0 <= i < j < |w.t.signals| :: cfg.tag(w.t.signals[i].payload.id) != cfg.tag(w.t.signals[j].payload.id)
  }

  /** With honest codes, honest history and injective tags, an executed status means a fill of
      that very signal. */
  lemma ExposureIsReal(cfg: Settings, n: nat, w: World, i: nat)
    requires Reachable(cfg, n, w)
    ensures HonestCodes(w) && HonestHistory(cfg, w) && TagsInjective(cfg, w) ==>
        i < |w.t.signals| && CountsAsTrade(w.t.signals[i].status) ==> Filled(w, i)
  {
    hide Run, Apply, Initial, HonestCodes, HonestHistory, TagsInjective, Filled;
    ReachableIsSafe(cfg, n, w);
    ReachableIsCertified(cfg, n, w);
    if HonestCodes(w) && HonestHistory(cfg, w) && TagsInjective(cfg, w) && i < |w.t.signals| && CountsAsTrade(w.t.signals[i].status) {
      assert RowTraced(cfg, w, i, w.t.signals[i]);
      ExecutedIsFilled(cfg, w, i);
    }
  }

  lemma ExecutedIsFilled(cfg: Settings, w: World, i: nat)
    requires Orders(w) && AllCertified(cfg, w) && i < |w.t.signals| && RowTraced(cfg, w, i, w.t.signals[i])
    requires CountsAsTrade(w.t.signals[i].status) && HonestCodes(w) && HonestHistory(cfg, w) && TagsInjective(cfg, w)
    ensures Filled(w, i)
  {
    hide OrderOk, OrderCertified, HonestHistory, TagsInjective;
    var status := w.t.signals[i].status;
    if status == RecoveredExecuted {
      RecoveredIsFilled(cfg, w, i);
    } else {
      var k :| 0 <= k < |w.orders| && w.orders[k].row == i && SendStatus(w.orders[k].result) == status;
      assert w.orders[k].filled;
    }
  }

  lemma RecoveredIsFilled(cfg: Settings, w: World, i: nat)
    requires Orders(w) && AllCertified(cfg, w) && i < |w.t.signals|
    requires HasLookup(w, i, cfg.tag(w.t.signals[i].payload.id)) && HonestHistory(cfg, w) && TagsInjective(cfg, w)
    ensures Filled(w, i)
  {
    var tag := cfg.tag(w.t.signals[i].payload.id);
    var l :| 0 <= l < |w.lookups| && w.lookups[l].row == i && tag in w.lookups[l].deals;
    assert TagOfSubmitted(cfg, w, tag);
    var k :| 0 <= k < |w.orders| && w.orders[k].filled && w.orders[k].request.comment == tag;
    var o := w.orders[k];
    assert OrderOk(w, o) && OrderCertified(cfg, o);
    assert cfg.tag(w.t.signals[o.row].payload.id) == tag;
    assert o.row == i;
  }

  // ---- the two tables ----

  /** Pending means untouched; a claimed signal has one attempt and at most one execution row;
      a settled signal has exactly one row and it agrees, except after recovery. */
  lemma TablesAreCoupled(tag: string -> string, n: nat, w: World, i: nat)
    requires ReachableUnder(tag, n, w)
    ensures i < |w.t.signals| ==>
        var st := w.t.signals[i].status;
        && (st == Pending ==> w.t.signals[i].attempts == 0 && !HasExec(w, i))
        && (st != Pending ==> w.t.signals[i].attempts == 1)
        && (forall e, f | 0 <= e < |w.t.execs| && 0 <= f < |w.t.execs| && w.t.execs[e].signal == i == w.t.execs[f].signal :: e == f)
        && (st != Pending && !Unresolved(st) ==> HasExec(w, i))
        && (forall e | 0 <= e < |w.t.execs| && w.t.execs[e].signal == i && w.t.execs[e].status != st :: Unresolved(st))
  {
    ReachableIsSafeUnder(tag, n, w);
    if i < |w.t.signals| {
      assert RowOk(w.t.signals[i], i < |w.claims|);
      forall e | 0 <= e < |w.t.execs| && w.t.execs[e].signal == i
        ensures RowCoupled(w, e) && i < |w.claims|
      {
        assert RowCoupled(w, e);
      }
    }
  }

  // ---- certified orders ----

  /** Every order in the log, whatever happened around it: live trading was on, the broker had
      accepted a check, the stop lies strictly on the losing side, the limits held and the
      request is the one derived from those observations. */
  lemma OrdersAreCertified(cfg: Settings, n: nat, w: World, i: nat)
    requires Reachable(cfg, n, w)
    ensures i < |w.orders| ==>
        var o := w.orders[i];
        && Certificate(cfg, o) && o.request == OrderRequest(cfg, o.payload, o.seen)
        && Inquiry(o.row, o.exec, o.request, o.seen.check) in w.checks
  {
    hide Run, Initial, Reachable, Certificate;
    ReachableIsCertified(cfg, n, w);
    ReachableIsEffected(cfg, n, w);
    if i < |w.orders| {
      assert OrderCertified(cfg, w.orders[i]) && OrderEffects(w.t, w.checks, w.orders[i]);
      CertificateHolds(cfg, w.orders[i]);
    }
  }

  /** When an order goes out the broker has already checked that very request, once, in the
      same attempt, and answered one of the two good codes. */
  lemma CheckedBeforeSend(cfg: Settings, n: nat, w: World, e: Event)
    requires Reachable(cfg, n, w)
    ensures var v := Apply(cfg, w, e);
      |v.orders| > |w.orders| ==> v.checks == w.checks && CheckedOnce(w.checks, v.orders[|w.orders|])
  {
    hide Run, Initial, Reachable, Decide, Queue, Orders, Coupled, Exposed, Traced, JobEffects, OrderEffects, Inquiries;
    ReachableIsSafe(cfg, n, w);
    ReachableIsEffected(cfg, n, w);
    if !e.Submit? && !e.PositionClosed? && e.k < |w.workers| && Choose(cfg, w, e).effect.SendOrder? {
      var was := w.workers[e.k];
      assert PhaseOk(w, was) && JobEffects(cfg, w.t, w.checks, was.step, was.job);
      SendWasChecked(cfg, w, was.step, was.job, e.answer);
    }
  }

  ghost predicate CheckedOnce(checks: seq<Inquiry>, o: Order) {
    exists c :: 0 <= c < |checks|
      && checks[c].row == o.row && checks[c].exec == o.exec && checks[c].request == o.request
      && (checks[c].code == Some(0) || checks[c].code == Some(10009))
      && forall d | 0 <= d < |checks| && checks[d].exec == o.exec :: d == c
  }

  lemma SendWasChecked(cfg: Settings, w: World, s: Step, j: Job, a: Answer)
    requires j.row < |w.t.signals| && JobEffects(cfg, w.t, w.checks, s, j) && OutcomeOk(s, j.outcome) && Inquiries(w)
    requires Decide(cfg, w.t, s, j, a).effect.SendOrder?
    ensures CheckedOnce(w.checks, Decide(cfg, w.t, s, j, a).effect.order)
  {
    hide OrderRequest, Failing, Decide;
    SentOrderIs(cfg, w.t, s, j, a);
    var c :| 0 <= c < |w.checks| && w.checks[c] == InquiryOf(cfg, j);
  }

  lemma SentOrderIs(cfg: Settings, t: Tables, s: Step, j: Job, a: Answer)
    requires j.row < |t.signals| && OutcomeOk(s, j.outcome) && Decide(cfg, t, s, j, a).effect.SendOrder?
    ensures s.Send? && j.outcome.Undecided? && (j.seen.check == Some(0) || j.seen.check == Some(10009))
    ensures var o := Decide(cfg, t, s, j, a).effect.order;
      o.row == j.row && o.exec == j.exec && o.request == OrderRequest(cfg, j.payload, j.seen)
  {
    hide OrderRequest, FirstIn, CalculateVolume;
    var fails := Failing(cfg, j.payload, j.seen);
    OnlySendSends(cfg, t, s, j, a);
    LastGates(fails);
    assert CheckPassed in fails || j.seen.check == Some(0) || j.seen.check == Some(10009);
  }

  predicate IdentityCertified(cfg: Settings, o: Order) {
    var p, s := o.payload, o.seen;
    && cfg.LiveExecutionAllowed()
    && s.now - cfg.maxSignalAgeSeconds * 1_000_000 <= p.timestamp <= s.now + 5_000_000
    && (if p.action == Buy then cfg.allowMarketBuy else cfg.allowMarketSell)
    && p.symbol in cfg.symbolMap && o.request.symbol == cfg.symbolMap[p.symbol]
    && o.request.magic == cfg.magic && o.request.deviation == 20
    && s.connected && Located(s) && s.key == Some(NameOf(s.account.value))
    && (s.check == Some(0) || s.check == Some(10009))
  }

  predicate MarketCertified(cfg: Settings, o: Order) {
    var p, s := o.payload, o.seen;
    && s.tick.Some? && 0.0 < s.tick.value.bid <= s.tick.value.ask
    && o.request.price == (if p.action == Buy then s.tick.value.ask else s.tick.value.bid)
    && s.info.Some? && s.info.value.point.Some? && s.info.value.point.value > 0.0
    && (s.tick.value.ask - s.tick.value.bid) / s.info.value.point.value <= cfg.maxSpreadPoints as real
    && FillingAllowed(s.info.value.fillingMode, o.request.filling)
    && p.stopLoss.Some?
    && (if p.action == Buy then p.stopLoss.value < o.request.price else p.stopLoss.value > o.request.price)
  }

  /** The filling of an order under a bit mask of allowed modes: fill-or-kill exactly when its
      bit 0 is set, immediate-or-cancel exactly when there is no mask or only bit 1 of the two
      is set, and otherwise what is left of the order rests. */
  predicate FillingAllowed(mask: Option<int>, filling: Filling) {
    && (filling == FillOrKill <==> mask.Some? && mask.value % 2 == 1)
    && (filling == ImmediateOrCancel <==> mask.None? || (mask.value % 2 == 0 && mask.value % 4 >= 2))
  }

  lemma FillingIsAllowed(mask: Option<int>)
    ensures FillingAllowed(mask, ResolveFilling(mask))
  {
  }

  /** The volume calculation on what the terminal answered: the loss of one lot, the side of
      the quote, the equity, and the limits of the symbol or their defaults. */
  function VolumeAnswered(p: Payload, s: Observed): VolumeResult
    requires s.tick.Some? && s.account.Some? && s.info.Some?
  {
    CalculateVolume(s.profit, if p.action == Buy then s.tick.value.ask else s.tick.value.bid, p.stopLoss,
                    s.account.value.equity, p.riskPercent,
                    s.info.value.volumeMin.GetOr(0.01), s.info.value.volumeMax.GetOr(100.0), s.info.value.volumeStep.GetOr(0.01))
  }

  lemma VolumeIsAnswered(p: Payload, s: Observed)
    requires s.tick.Some? && s.account.Some? && s.info.Some?
    ensures VolumeOf(p, s) == VolumeAnswered(p, s)
  {
    hide CalculateVolume;
  }

  predicate LimitsCertified(cfg: Settings, o: Order) {
    var p, s := o.payload, o.seen;
    && s.tick.Some? && s.account.Some? && s.info.Some?
    && s.trades < cfg.maxTradesPerDay
    && s.positions.Some? && multiset(s.positions.value)[cfg.magic] < cfg.maxOpenPositions
    && s.baseline > 0.0 && (s.baseline - s.account.value.equity) / s.baseline * 100.0 < cfg.maxDailyLossPercent
    && 0.0 < p.riskPercent <= cfg.maxRiskPercent
    && p.stopLoss.Some? && VolumeAnswered(p, s) == Sized(o.request.volume)
  }

  predicate Certificate(cfg: Settings, o: Order) {
    IdentityCertified(cfg, o) && MarketCertified(cfg, o) && LimitsCertified(cfg, o)
  }

  lemma GatePassed(cfg: Settings, o: Order, g: Gate)
    requires Failing(cfg, o.payload, o.seen) == {}
    ensures GateResult(cfg, o.payload, o.seen, g).None?
  {
    assert g !in Failing(cfg, o.payload, o.seen);
  }

  lemma IdentityHolds(cfg: Settings, o: Order)
    requires OrderCertified(cfg, o)
    ensures IdentityCertified(cfg, o)
  {
    GatePassed(cfg, o, Fresh);
    GatePassed(cfg, o, ActionEnabled);
    GatePassed(cfg, o, SymbolMapped);
    GatePassed(cfg, o, Connected);
    GatePassed(cfg, o, AccountKnown);
    GatePassed(cfg, o, AccountNamed);
    GatePassed(cfg, o, CheckPassed);
    GatePassed(cfg, o, LiveAllowed);
    OrderLocated(cfg, o);
    LocatedIs(o.seen);
  }

  lemma CountsHold(cfg: Settings, o: Order)
    requires Failing(cfg, o.payload, o.seen) == {}
    ensures o.seen.trades < cfg.maxTradesPerDay
    ensures o.seen.positions.Some? && multiset(o.seen.positions.value)[cfg.magic] < cfg.maxOpenPositions
  {
    GatePassed(cfg, o, TradesLeft);
    GatePassed(cfg, o, PositionsKnown);
    GatePassed(cfg, o, PositionsLeft);
  }

  lemma RiskHolds(cfg: Settings, o: Order)
    requires Failing(cfg, o.payload, o.seen) == {}
    ensures CheckDailyLoss(Equity(o.seen), o.seen.baseline, cfg.maxDailyLossPercent).None?
    ensures 0.0 < o.payload.riskPercent <= cfg.maxRiskPercent && o.seen.sized.Sized?
  {
    hide CheckDailyLoss;
    GatePassed(cfg, o, LossWithin);
    GatePassed(cfg, o, RiskWithin);
    GatePassed(cfg, o, VolumeFound);
  }

  lemma LimitsHold(cfg: Settings, o: Order)
    requires OrderCertified(cfg, o)
    ensures LimitsCertified(cfg, o)
  {
    hide Failing, CalculateVolume, Located, VolumeOf, VolumeAnswered, OrderCertified, OrderRequest, AccountKey;
    OrderIsPlanned(cfg, o);
    CountsHold(cfg, o);
    RiskHolds(cfg, o);
    AccountIsSeen(cfg, o);
    VolumeIsAnswered(o.payload, o.seen);
    SizedNeedsStop(o.payload, o.seen);
  }

  lemma AccountIsSeen(cfg: Settings, o: Order)
    requires OrderCertified(cfg, o)
    ensures o.seen.account.Some? && Equity(o.seen) == o.seen.account.value.equity && o.seen.info.Some? && o.seen.tick.Some?
  {
    hide OrderCertified, Known, NameOf, AccountKey;
    OrderLocated(cfg, o);
  }

  lemma OrderIsPlanned(cfg: Settings, o: Order)
    requires OrderCertified(cfg, o)
    ensures Failing(cfg, o.payload, o.seen) == {} && o.seen.sized == VolumeOf(o.payload, o.seen)
    ensures o.request.volume == PlannedVolume(o.seen)
  {
    hide Failing, VolumeOf, PlannedVolume;
  }

  lemma SizedNeedsStop(p: Payload, o: Observed)
    requires VolumeOf(p, o).Sized?
    ensures p.stopLoss.Some?
  {
  }

  lemma MarketHolds(cfg: Settings, o: Order)
    requires OrderCertified(cfg, o) && o.payload.stopLoss.Some?
    ensures MarketCertified(cfg, o)
  {
    GatePassed(cfg, o, SymbolUsable);
    GatePassed(cfg, o, TickKnown);
    GatePassed(cfg, o, StopLossValid);
    GatePassed(cfg, o, SpreadValid);
    FillingIsAllowed(o.seen.info.value.fillingMode);
  }

  lemma CertificateHolds(cfg: Settings, o: Order)
    requires OrderCertified(cfg, o)
    ensures Certificate(cfg, o)
  {
    IdentityHolds(cfg, o);
    LimitsHold(cfg, o);
    MarketHolds(cfg, o);
  }

  /** The volume of an order is the largest one that the broker takes and the budget allows. */
  ghost predicate LargestWithin(v: real, step: real, lo: real, hi: real, perLot: real, budget: real) {
    Admissible(v, step, lo, hi, perLot, budget) && forall u :: Admissible(u, step, lo, hi, perLot, budget) ==> u <= v
  }

  /** The step is on the grid, and the broker's maximum fits it. */
  ghost predicate SaneVolumes(step: real, lo: real, hi: real) {
    OnGrid(step) && lo <= hi && IsMultiple(hi, step)
  }

  /** Every order plans the largest admissible loss for the equity and the risk of its signal,
      under the limits of the broker's symbol or their defaults. */
  lemma OrdersAreOptimallySized(cfg: Settings, n: nat, w: World, i: nat)
    requires Reachable(cfg, n, w)
    ensures i < |w.orders| ==> OptimallySized(w.orders[i]) && SizedStepwise(w.orders[i])
  {
    hide Run, Initial, Reachable, OptimallySized, SizedStepwise;
    ReachableIsCertified(cfg, n, w);
    if i < |w.orders| {
      assert OrderCertified(cfg, w.orders[i]);
      LimitsHold(cfg, w.orders[i]);
      SizedOptimally(cfg, w.orders[i]);
      SizedInSteps(cfg, w.orders[i]);
    }
  }

  /** The money that the signal may lose: its percentage of the account's equity. */
  function Budget(o: Order): real
    requires o.seen.account.Some?
  {
    o.seen.account.value.equity * (o.payload.riskPercent / 100.0)
  }

  ghost predicate OptimallySized(o: Order) {
    && o.seen.info.Some? && o.seen.account.Some?
    && var info := o.seen.info.value;
    var step, lo, hi := info.volumeStep.GetOr(0.01), info.volumeMin.GetOr(0.01), info.volumeMax.GetOr(100.0);
    SaneVolumes(step, lo, hi) ==>
      o.seen.profit.Some? && LargestWithin(o.request.volume, step, lo, hi, Abs(o.seen.profit.value), Budget(o))
  }

  /** Whatever the step and the limits: the most steps within the budget, rounded to eight
      decimals, not below the minimum and cut at the maximum. */
  ghost predicate SizedStepwise(o: Order) {
    && o.seen.info.Some? && o.seen.account.Some? && o.seen.profit.Some?
    && var info := o.seen.info.value;
    var lo, hi := info.volumeMin.GetOr(0.01), info.volumeMax.GetOr(100.0);
    exists volume ::
      && StepsRounded(volume, info.volumeStep.GetOr(0.01), Abs(o.seen.profit.value), Budget(o))
      && lo <= volume && o.request.volume == if volume > hi then hi else volume
  }

  lemma SizedInSteps(cfg: Settings, o: Order)
    requires LimitsCertified(cfg, o)
    ensures SizedStepwise(o)
  {
    hide StepsRounded, CalculateVolume, Abs, AllowedLoss, Budget;
    var p, s := o.payload, o.seen;
    var info, equity := s.info.value, s.account.value.equity;
    var entry := if p.action == Buy then s.tick.value.ask else s.tick.value.bid;
    var step, lo, hi := info.volumeStep.GetOr(0.01), info.volumeMin.GetOr(0.01), info.volumeMax.GetOr(100.0);
    SizedInputs(s.profit, entry, p.stopLoss, equity, p.riskPercent, lo, hi, step);
    var volume := SizedByWholeSteps(s.profit.value, entry, p.stopLoss.value, equity, p.riskPercent, lo, hi, step);
    assert s.profit == Some(s.profit.value) && p.stopLoss == Some(p.stopLoss.value);
    BudgetIsAllowedLoss(o);
  }

  lemma SizedOptimally(cfg: Settings, o: Order)
    requires LimitsCertified(cfg, o)
    ensures OptimallySized(o)
  {
    hide Admissible, IsMultiple, OnGrid, CalculateVolume, AllowedLoss, Budget;
    var p, s := o.payload, o.seen;
    var info, equity := s.info.value, s.account.value.equity;
    var entry := if p.action == Buy then s.tick.value.ask else s.tick.value.bid;
    var step, lo, hi := info.volumeStep.GetOr(0.01), info.volumeMin.GetOr(0.01), info.volumeMax.GetOr(100.0);
    if SaneVolumes(step, lo, hi) {
      SizedInputs(s.profit, entry, p.stopLoss, equity, p.riskPercent, lo, hi, step);
      OptimalSizing(s.profit.value, entry, p.stopLoss.value, equity, p.riskPercent, lo, hi, step);
      assert s.profit == Some(s.profit.value) && p.stopLoss == Some(p.stopLoss.value);
      BudgetIsAllowedLoss(o);
    }
  }

  lemma BudgetIsAllowedLoss(o: Order)
    requires o.seen.account.Some?
    ensures Budget(o) == AllowedLoss(o.seen.account.value.equity, o.payload.riskPercent)
  {
  }

  lemma SizedInputs(
    profit: Option<real>, entryPrice: real, stopLoss: Option<real>, equity: real, riskPercent: real,
    lo: real, hi: real, step: real)
    requires CalculateVolume(profit, entryPrice, stopLoss, equity, riskPercent, lo, hi, step).Sized?
    ensures profit.Some? && profit.value != 0.0 && entryPrice > 0.0 && stopLoss.Some? && stopLoss.value > 0.0 && step > 0.0
  {
  }

  lemma RequestCarries(cfg: Settings, p: Payload, o: Observed)
    ensures var r := OrderRequest(cfg, p, o);
      && r.action == p.action && r.sl == p.stopLoss && r.tp == p.takeProfit
      && r.comment == cfg.tag(p.id) && r.magic == cfg.magic && r.deviation == 20
  {
    hide ResolveFilling, PlannedVolume;
  }

  /** An order carries the action, stop and target of the first submission of its id. */
  lemma OrdersCarryFirstSubmission(cfg: Settings, n: nat, w: World, i: nat)
    requires Reachable(cfg, n, w)
    ensures i < |w.orders| ==>
        var o := w.orders[i];
        && IsFirstSubmission(w.submits, o.payload)
        && o.request.action == o.payload.action && o.request.sl == o.payload.stopLoss && o.request.tp == o.payload.takeProfit
        && o.request.comment == cfg.tag(o.payload.id)
  {
    hide Run, Initial, Reachable, Queue, Workers, Attempts, Coupled, Exposed, Traced, Failing, Consistent, OrderRequest, FirstOccurrences;
    ReachableIsSafe(cfg, n, w);
    ReachableIsCertified(cfg, n, w);
    ReachableDeduplicates(cfg, n, w);
    if i < |w.orders| {
      var o := w.orders[i];
      assert OrderOk(w, o) && OrderCertified(cfg, o);
      RequestCarries(cfg, o.payload, o.seen);
      assert Payloads(w.t.signals)[o.row] == o.payload;
      FirstOccurrencesMeaning(w.submits, o.payload);
    }
  }

  // ---- what the gates mean ----

  /** What each gate demands, in the terms of its inputs. */
  predicate Demands(cfg: Settings, p: Payload, o: Observed, g: Gate) {
    var bid := if o.tick.Some? then o.tick.value.bid else 0.0;
    var ask := if o.tick.Some? then o.tick.value.ask else 0.0;
    var entry := if p.action == Buy then ask else bid;
    var point := if o.info.Some? && o.info.value.point.Some? then o.info.value.point.value else 0.0;
    var equity := if o.account.Some? then o.account.value.equity else 0.0;
    match g
    case Fresh => o.now - cfg.maxSignalAgeSeconds * 1_000_000 <= p.timestamp <= o.now + 5_000_000
    case ActionEnabled => (p.action == Buy && cfg.allowMarketBuy) || (p.action == Sell && cfg.allowMarketSell)
    case SymbolMapped => p.symbol in cfg.symbolMap.Keys
    case Connected => o.connected
    case AccountKnown => o.account != None
    case AccountNamed => o.account.Some? && Known(o.account.value)
    case SymbolUsable => o.info != None
    case TickKnown => o.tick != None
    case BrokerTimeKnown => o.brokerNow != None
    case StopLossValid =>
      if p.stopLoss.None? then !cfg.requireStopLoss
      else (p.action == Buy && p.stopLoss.value < entry) || (p.action == Sell && entry < p.stopLoss.value)
    case SpreadValid => 0.0 < bid <= ask && 0.0 < point && (ask - bid) / point <= cfg.maxSpreadPoints as real
    case TradesLeft => o.trades < cfg.maxTradesPerDay
    case PositionsKnown => o.positions != None
    case PositionsLeft => multiset(o.positions.GetOr([]))[cfg.magic] < cfg.maxOpenPositions
    case LossWithin => 0.0 < o.baseline && (o.baseline - equity) / o.baseline * 100.0 < cfg.maxDailyLossPercent
    case RiskWithin => 0.0 < p.riskPercent <= cfg.maxRiskPercent
    case VolumeFound =>
      var info := if o.info.Some? then o.info.value else SymbolInfo(None, None, None, None, None);
      CalculateVolume(o.profit, entry, p.stopLoss, equity, p.riskPercent, info.volumeMin.GetOr(0.01),
                      info.volumeMax.GetOr(100.0), info.volumeStep.GetOr(0.01)).Sized?
    case CheckPassed => o.check in {Some(0), Some(10009)}
    case LiveAllowed => !cfg.dryRun && cfg.liveExecutionEnabled
  }

  /** The statuses a gate can give, and which of two when there is a choice. */
  predicate Gives(cfg: Settings, p: Payload, o: Observed, g: Gate, status: Status) {
    match g
    case Fresh => status == if p.timestamp < o.now then RejectedStale else RejectedFutureTimestamp
    case SymbolMapped => status == RejectedSymbol
    case ActionEnabled => status == RejectedRisk
    case RiskWithin => status == RejectedRisk
    case SymbolUsable => status == RejectedSymbolUnavailable
    case BrokerTimeKnown => status == FailedBrokerTimeUnknown
    case StopLossValid => status == RejectedStopLoss
    case SpreadValid => status == RejectedSpread
    case TradesLeft => status == RejectedDailyTradeLimit
    case PositionsKnown => status == FailedMt5StateUnknown
    case PositionsLeft => status == RejectedPositionLimit
    case LossWithin => status == RejectedDailyLoss
    case VolumeFound => status == if o.sized.BelowMinimum? then RejectedVolumeBelowMinimum else RejectedVolume
    case CheckPassed => status == RejectedOrderCheck
    case LiveAllowed => status == DryRunApproved
    case _ => status == FailedMt5Unavailable
  }

  /** A gate lets an attempt pass exactly when its demand is met, and gives its own status
      when it does not. */
  lemma GatesDecideExactly(cfg: Settings, p: Payload, o: Observed, g: Gate)
    requires cfg.maxSignalAgeSeconds >= 1
    requires (g == AccountNamed ==> o.key == AccountKey(o)) && (g == VolumeFound ==> o.sized == VolumeOf(p, o))
    ensures GateResult(cfg, p, o, g).None? <==> Demands(cfg, p, o, g)
    ensures GateResult(cfg, p, o, g).Some? ==> Gives(cfg, p, o, g, GateResult(cfg, p, o, g).value)
  {
    hide CalculateVolume, Known, NameOf, AccountKeyFor;
    match g
    case AccountNamed =>
      if o.account.Some? {
        KeyOfKnown(o.account.value);
      }
    case _ =>
  }

  /** The order that an attempt sends and what becomes of it. */
  function OrderOf(cfg: Settings, j: Job, a: Answer): Order {
    Order(j.row, j.exec, j.payload, j.seen, OrderRequest(cfg, j.payload, j.seen), a.result, a.filled, a.opens)
  }

  /** At the last step before the broker an order goes out exactly when the check code is one
      of the two good ones and live execution is on; nothing else is left to decide. */
  lemma SendsExactlyWhenCleared(cfg: Settings, n: nat, w: World, k: nat, a: Answer)
    requires Reachable(cfg, n, w)
    ensures k < |w.workers| && w.workers[k].Running? && w.workers[k].step.Send? ==>
        var j := w.workers[k].job;
        var v := Apply(cfg, w, Advance(k, a));
        && (v.orders != w.orders <==> ClearToSend(cfg, j.seen))
        && (v.orders != w.orders ==> v.orders == w.orders + [OrderOf(cfg, j, a)])
  {
    hide Run, Apply, Initial, Orders, Coupled, Exposed, Traced, Attempts, Queue;
    ReachableIsSafe(cfg, n, w);
    if k < |w.workers| && w.workers[k].Running? && w.workers[k].step.Send? {
      assert PhaseOk(w, w.workers[k]);
      SendDecides(cfg, w, k, a);
    }
  }

  /** What is left to decide at the send. */
  predicate ClearToSend(cfg: Settings, o: Observed) {
    o.check in {Some(0), Some(10009)} && !cfg.dryRun && cfg.liveExecutionEnabled
  }

  lemma SendDecides(cfg: Settings, w: World, k: nat, a: Answer)
    requires k < |w.workers| && w.workers[k].Running? && w.workers[k].step.Send? && w.workers[k].job.row < |w.t.signals|
    ensures var j := w.workers[k].job;
      Apply(cfg, w, Advance(k, a)).orders ==
      if ClearToSend(cfg, j.seen) then w.orders + [OrderOf(cfg, j, a)] else w.orders
  {
    hide FirstIn, CalculateVolume;
    var j := w.workers[k].job;
    var fails := Failing(cfg, j.payload, j.seen);
    assert ClearToSend(cfg, j.seen) <==> CheckPassed !in fails && LiveAllowed !in fails;
    LastGates(fails);
  }

  lemma LastGates(fails: set<Gate>)
    ensures FirstIn(fails, 17, 19).None? <==> CheckPassed !in fails && LiveAllowed !in fails
  {
    var r := FirstIn(fails, 17, 19);
    if r.Some? {
      assert r.value == GateAt(Rank(r.value));
    } else {
      assert Rank(CheckPassed) == 17 && Rank(LiveAllowed) == 18;
    }
  }

  // ---- first failing gate ----

  lemma FinishMove(cfg: Settings, w: World, k: nat, a: Answer)
    requires k < |w.workers| && w.workers[k].Running? && w.workers[k].step.FinishSignal?
    requires w.workers[k].job.row < |w.t.signals|
    ensures var j := w.workers[k].job;
      Apply(cfg, w, Advance(k, a)) ==
      w.(t := SetRow(w.t, j.row, OutcomeStatus(j.outcome)), workers := w.workers[k := Idle])
  {
  }

  /** What both tables hold of an attempt that settles: one status, and short of the send the
      status of the first gate, in code order, that fails on what was observed, with exactly
      the columns that the gates before it write.  Its effects elsewhere are those of the gates
      before it too: the day's baseline is stored once the position gates are passed, and the
      broker was asked to check the request exactly when the check gate was reached. */
  ghost predicate Explained(cfg: Settings, w: World, t: Tables, j: Job) {
    && j.row < |t.signals| && j.exec < |t.execs|
    && t.signals[j.row].status == t.execs[j.exec].status == OutcomeStatus(j.outcome)
    && ResultTells(t.execs[j.exec], FinishSignal, j.outcome)
    && JobEffects(cfg, t, w.checks, FinishSignal, j)
    && (Anchored(FinishSignal, j.outcome) ==> HasBaseline(t, j.seen))
    && (match j.outcome
        case Stopped(g, status) =>
          && IsFirst(Failing(cfg, j.payload, j.seen), g)
          && GateResult(cfg, j.payload, j.seen, g) == Some(status)
          && RowTells(cfg, t.execs[j.exec], j.payload, j.seen, Rank(g))
          && t.signals[j.row].normalized == Recorded(Rank(g) >= 3, MappedSymbol(cfg, j.payload))
          && t.execs[j.exec].checkCode == (if Rank(g) >= 17 then j.seen.check else None)
        case Sent(o) =>
          && Failing(cfg, j.payload, j.seen) == {} && o in w.orders && o.row == j.row && o.seen == j.seen
          && RowTells(cfg, t.execs[j.exec], j.payload, j.seen, GATES)
        case Undecided => false)
  }

  lemma SettledByFirstFailingGate(cfg: Settings, n: nat, w: World, k: nat, a: Answer)
    requires Reachable(cfg, n, w)
    ensures k < |w.workers| && w.workers[k].Running? && w.workers[k].step.FinishSignal? ==>
        var v := Apply(cfg, w, Advance(k, a));
        v.workers[k] == Idle && Explained(cfg, w, v.t, w.workers[k].job)
  {
    ReachableIsSafe(cfg, n, w);
    ReachableIsCertified(cfg, n, w);
    ReachableKeepsTrail(cfg, n, w);
    ReachableIsEffected(cfg, n, w);
    hide Run, Initial, Reachable, Explained, Failing, RowTells, ResultTells, Queue, Attempts, Exposed, Traced;
    if k < |w.workers| && w.workers[k].Running? && w.workers[k].step.FinishSignal? {
      var s, j := w.workers[k].step, w.workers[k].job;
      assert PhaseOk(w, w.workers[k]) && AttemptOpen(w, s, j) && Remembers(w, k);
      assert JobCertified(cfg, s, j) && JobTells(cfg, w.t, s, j) && JobEffects(cfg, w.t, w.checks, s, j);
      FinishMove(cfg, w, k, a);
      SettleExplained(cfg, w, k);
    }
  }

  lemma SettleExplained(cfg: Settings, w: World, k: nat)
    requires k < |w.workers| && w.workers[k].Running? && w.workers[k].step.FinishSignal?
    requires Remembers(w, k) && PhaseOk(w, w.workers[k])
    requires AttemptOpen(w, FinishSignal, w.workers[k].job)
    requires JobCertified(cfg, FinishSignal, w.workers[k].job) && JobTells(cfg, w.t, FinishSignal, w.workers[k].job)
    requires JobEffects(cfg, w.t, w.checks, FinishSignal, w.workers[k].job)
    ensures var j := w.workers[k].job; Explained(cfg, w, SetRow(w.t, j.row, OutcomeStatus(j.outcome)), j)
  {
    hide Failing, RowTells, JobEffects, Consistent, GateResult, ResultTells, MappedSymbol, HasBaseline, Anchored;
    if Anchored(FinishSignal, w.workers[k].job.outcome) {
      AnchoredHasBaseline(cfg, w.t, w.checks, FinishSignal, w.workers[k].job);
      BaselineStays(w.t, w.workers[k].job);
    }
    EffectsSettle(cfg, w, w.workers[k].job);
  }

  lemma BaselineStays(t: Tables, j: Job)
    requires HasBaseline(t, j.seen)
    ensures HasBaseline(SetRow(t, j.row, OutcomeStatus(j.outcome)), j.seen)
  {
  }

  lemma EffectsSettle(cfg: Settings, w: World, j: Job)
    requires JobEffects(cfg, w.t, w.checks, FinishSignal, j)
    ensures JobEffects(cfg, SetRow(w.t, j.row, OutcomeStatus(j.outcome)), w.checks, FinishSignal, j)
  {
  }

  /** The same in the terms of the gates' inputs: an attempt that settles has sent its order if
      and only if every demand was met by what it observed, and otherwise has stopped, with the
      status of that gate, at the first demand that was not. */
  ghost predicate DecidedByDemands(cfg: Settings, j: Job) {
    match j.outcome
    case Undecided => false
    case Sent(_) => forall g: Gate :: Demands(cfg, j.payload, j.seen, g)
    case Stopped(g, status) =>
      && !Demands(cfg, j.payload, j.seen, g) && Gives(cfg, j.payload, j.seen, g, status)
      && forall h: Gate | Rank(h) < Rank(g) :: Demands(cfg, j.payload, j.seen, h)
  }

  /** The pipeline in one piece: the status of the first demand that is not met, read top to
      bottom in the order of the code, or None when an order is due. */
  function Verdict(cfg: Settings, p: Payload, o: Observed): Option<Status> {
    if !Demands(cfg, p, o, Fresh) then Some(if p.timestamp < o.now then RejectedStale else RejectedFutureTimestamp)
    else if !Demands(cfg, p, o, ActionEnabled) then Some(RejectedRisk)
    else if !Demands(cfg, p, o, SymbolMapped) then Some(RejectedSymbol)
    else if !Demands(cfg, p, o, Connected) then Some(FailedMt5Unavailable)
    else if !Demands(cfg, p, o, AccountKnown) then Some(FailedMt5Unavailable)
    else if !Demands(cfg, p, o, AccountNamed) then Some(FailedMt5Unavailable)
    else if !Demands(cfg, p, o, SymbolUsable) then Some(RejectedSymbolUnavailable)
    else if !Demands(cfg, p, o, TickKnown) then Some(FailedMt5Unavailable)
    else if !Demands(cfg, p, o, BrokerTimeKnown) then Some(FailedBrokerTimeUnknown)
    else if !Demands(cfg, p, o, StopLossValid) then Some(RejectedStopLoss)
    else if !Demands(cfg, p, o, SpreadValid) then Some(RejectedSpread)
    else if !Demands(cfg, p, o, TradesLeft) then Some(RejectedDailyTradeLimit)
    else if !Demands(cfg, p, o, PositionsKnown) then Some(FailedMt5StateUnknown)
    else if !Demands(cfg, p, o, PositionsLeft) then Some(RejectedPositionLimit)
    else if !Demands(cfg, p, o, LossWithin) then Some(RejectedDailyLoss)
    else if !Demands(cfg, p, o, RiskWithin) then Some(RejectedRisk)
    else if !Demands(cfg, p, o, VolumeFound) then
      Some(if o.sized.BelowMinimum? then RejectedVolumeBelowMinimum else RejectedVolume)
    else if !Demands(cfg, p, o, CheckPassed) then Some(RejectedOrderCheck)
    else if !Demands(cfg, p, o, LiveAllowed) then Some(DryRunApproved)
    else None
  }

  /** The attempt ended as the verdict on what it observed says. */
  ghost predicate EndsByVerdict(cfg: Settings, j: Job) {
    match j.outcome
    case Undecided => false
    case Stopped(_, status) => Verdict(cfg, j.payload, j.seen) == Some(status)
    case Sent(_) => Verdict(cfg, j.payload, j.seen) == None
  }

  lemma VerdictAt(cfg: Settings, p: Payload, o: Observed, g: Gate)
    requires !Demands(cfg, p, o, g) && forall h: Gate | Rank(h) < Rank(g) :: Demands(cfg, p, o, h)
    ensures Verdict(cfg, p, o).Some? && Gives(cfg, p, o, g, Verdict(cfg, p, o).value)
  {
    hide Demands, GateAt;
  }

  lemma DemandsGiveVerdict(cfg: Settings, j: Job)
    requires DecidedByDemands(cfg, j)
    ensures EndsByVerdict(cfg, j)
  {
    hide Demands, GateAt, Rank;
    if j.outcome.Stopped? {
      hide Verdict;
      VerdictAt(cfg, j.payload, j.seen, j.outcome.gate);
    }
  }

  lemma AttemptsDecidedByDemands(cfg: Settings, n: nat, w: World, k: nat)
    requires Reachable(cfg, n, w) && cfg.maxSignalAgeSeconds >= 1
    ensures k < |w.workers| && w.workers[k].Running? && w.workers[k].step.FinishSignal? ==>
      DecidedByDemands(cfg, w.workers[k].job) && EndsByVerdict(cfg, w.workers[k].job)
  {
    hide Run, Initial, Reachable, Queue, Attempts, Orders, Coupled, Exposed, Traced, Failing, Consistent, DecidedByDemands;
    ReachableIsSafe(cfg, n, w);
    ReachableIsCertified(cfg, n, w);
    if k < |w.workers| && w.workers[k].Running? && w.workers[k].step.FinishSignal? {
      assert PhaseOk(w, w.workers[k]) && JobCertified(cfg, FinishSignal, w.workers[k].job);
      CertifiedByDemands(cfg, w.workers[k].job);
      hide EndsByVerdict;
      DemandsGiveVerdict(cfg, w.workers[k].job);
    }
  }

  lemma CertifiedByDemands(cfg: Settings, j: Job)
    requires JobCertified(cfg, FinishSignal, j) && !j.outcome.Undecided? && cfg.maxSignalAgeSeconds >= 1
    ensures DecidedByDemands(cfg, j)
  {
    hide Demands, Gives, GateResult;
    forall g: Gate | Rank(g) < Evaluated(FinishSignal, j.outcome)
      ensures g in Failing(cfg, j.payload, j.seen) <==> !Demands(cfg, j.payload, j.seen, g)
    {
      assert (g == AccountNamed ==> Rank(g) == 5) && (g == VolumeFound ==> Rank(g) == 16);
      GatesDecideExactly(cfg, j.payload, j.seen, g);
    }
    if j.outcome.Stopped? {
      assert (j.outcome.gate == AccountNamed ==> Rank(j.outcome.gate) == 5) && (j.outcome.gate == VolumeFound ==> Rank(j.outcome.gate) == 16);
      GatesDecideExactly(cfg, j.payload, j.seen, j.outcome.gate);
    }
  }
}
