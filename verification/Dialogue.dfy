/** What the bridge is told from outside: every reading of the host's clock and every call of
    the terminal with its answer, and what an attempt's observations owe to them. */
module Dialogue {
  import opened Types
  import opened Sizing
  import opened Pipeline
  import opened Machine
  import opened Safety
  import opened Certified
  import opened Effects

  /** A symbol as the terminal lists it; an SDK object may lack `visible`. */
  datatype Listed = Listed(info: SymbolInfo, visible: Option<bool>)

  /** A tick; its time may be missing or out of the range of dates. */
  datatype TickAnswer = TickAnswer(tick: Tick, time: Option<int>)

  /** One call and its answer. */
  datatype Exchange =
    | ClockRead(now: int)
    | AccountAsked(account: Option<Account>)
    | InitializeAsked(ok: bool)
    | ShutdownAsked
    | SymbolAsked(symbol: string, listed: Option<Listed>)
    | SelectAsked(symbol: string, selected: bool)
    | TickAsked(symbol: string, tick: Option<TickAnswer>)
    | PositionsAsked(magics: Option<seq<int>>)
    | HistoryAsked(comments: Option<seq<string>>)
    | ProfitAsked(action: Action, symbol: string, entry: real, stop: real, profit: Option<real>)
    | CheckAsked(request: Request, checked: Option<Option<int>>)
    | SendAsked(request: Request, result: Option<SendResult>)

  // ---- the dialogues of single calls ----

  /** A believed connection costs one probe and is believed by its answer only. */
  predicate Probed(cached: bool, said: seq<Exchange>, yes: bool) {
    if cached then |said| == 1 && said[0].AccountAsked? && yes == said[0].account.Some?
    else said == [] && !yes
  }

  /** At most three calls of `initialize`, each failing one followed by the next. */
  predicate Tried(said: seq<Exchange>, ok: bool) {
    && 1 <= |said| <= 3 && (forall i | 0 <= i < |said| :: said[i].InitializeAsked?)
    && (forall i | 0 <= i < |said| - 1 :: !said[i].ok)
    && said[|said| - 1].ok == ok && (!ok ==> |said| == 3)
  }

  /** A live connection, or tries after none was cached or the cached one did not answer. */
  predicate Connects(said: seq<Exchange>, ok: bool) {
    || (said == [] && !ok)
    || (Probed(true, said, true) && ok)
    || Tried(said, ok)
    || (said != [] && said[0] == AccountAsked(None) && Tried(said[1..], ok))
  }

  /** The whole exchange of connecting, from what was cached: no call without the SDK, one probe
      if a connection is cached, and tries only if that fails. */
  predicate EnsuredConnection(available: bool, cached: bool, said: seq<Exchange>, ok: bool) {
    if !available then said == [] && !ok
    else if !cached then Tried(said, ok)
    else if Probed(true, said, true) then ok
    else said != [] && said[0] == AccountAsked(None) && Tried(said[1..], ok)
  }

  lemma EnsuredConnects(available: bool, cached: bool, said: seq<Exchange>, ok: bool)
    requires EnsuredConnection(available, cached, said, ok)
    ensures Connects(said, ok)
  {
  }

  function Failures(n: nat): (said: seq<Exchange>)
    ensures |said| == n && forall i | 0 <= i < n :: said[i] == InitializeAsked(false)
  {
    seq(n, _ => InitializeAsked(false))
  }

  lemma TriesEnd(n: nat)
    requires n < 3
    ensures Tried(Failures(n) + [InitializeAsked(true)], true) && Tried(Failures(3), false)
    ensures Failures(n) + [InitializeAsked(false)] == Failures(n + 1)
  {
  }

  /** A symbol that is listed and not marked invisible is taken as it is and nothing else is
      asked.  A missing or invisible one is selected, once, and unless that fails looked up
      again, and that second answer is taken. */
  predicate EnsuredSymbol(symbol: string, said: seq<Exchange>, info: Option<SymbolInfo>) {
    && said != [] && said[0].SymbolAsked? && said[0].symbol == symbol
    && if said[0].listed.Some? && said[0].listed.value.visible != Some(false)
       then |said| == 1 && info == Some(said[0].listed.value.info)
       else
         && |said| >= 2 && said[1].SelectAsked? && said[1].symbol == symbol
         && if !said[1].selected then |said| == 2 && info.None?
            else
              && |said| == 3 && said[2].SymbolAsked? && said[2].symbol == symbol
              && info == if said[2].listed.None? then None else Some(said[2].listed.value.info)
  }

  /** The quote of an answered tick, and its time if that is a date. */
  predicate QuoteGiven(answer: Option<TickAnswer>, tick: Option<Tick>) {
    if answer.None? then tick.None? else tick == Some(Tick(answer.value.tick.bid, answer.value.tick.ask))
  }

  predicate TimeGiven(answer: Option<TickAnswer>, time: Option<int>) {
    match time
    case None => answer.None? || answer.value.time.None?
    case Some(t) => answer.Some? && answer.value.time == Some(t)
  }

  predicate AskedTick(symbol: string, said: seq<Exchange>) {
    |said| == 1 && said[0].TickAsked? && said[0].symbol == symbol
  }

  // ---- the dialogue of a step ----

  /** The terminal is asked for the loss of one lot only behind the loss and risk gates and
      for sane prices. */
  predicate AsksProfit(cfg: Settings, p: Payload, o: Observed) {
    && GateResult(cfg, p, o, LossWithin).None? && GateResult(cfg, p, o, RiskWithin).None?
    && EntryPrice(p, o) > 0.0 && p.stopLoss.Some? && p.stopLoss.value > 0.0
  }

  predicate AsksSend(cfg: Settings, p: Payload, o: Observed) {
    GateResult(cfg, p, o, CheckPassed).None? && GateResult(cfg, p, o, LiveAllowed).None?
  }

  predicate Identification(said: seq<Exchange>, connected: bool, account: Option<Account>) {
    if connected then said != [] && said[|said| - 1] == AccountAsked(account) && Connects(said[..|said| - 1], true)
    else Connects(said, false) && account.None?
  }

  predicate Quotation(symbol: string, said: seq<Exchange>, info: Option<SymbolInfo>, tick: Option<Tick>) {
    if info.Some? then
      && said != [] && AskedTick(symbol, said[|said| - 1..]) && QuoteGiven(said[|said| - 1].tick, tick)
      && EnsuredSymbol(symbol, said[..|said| - 1], info)
    else EnsuredSymbol(symbol, said, None) && tick.None?
  }

  /** What is said while an attempt takes a step, and the answers it takes away. */
  predicate StepTold(cfg: Settings, s: Step, j: Job, a: Answer, said: seq<Exchange>) {
    var p, o, seen := j.payload, j.seen, a.seen;
    var symbol := MappedSymbol(cfg, p);
    match s
    case Insert => said == [ClockRead(a.startedAt)]
    case Admit => said == [ClockRead(seen.now)]
    case Identify => Identification(said, seen.connected, seen.account)
    case Quote => Quotation(symbol, said, seen.info, seen.tick)
    case Guard => AskedTick(symbol, said) && TimeGiven(said[0].tick, seen.brokerNow)
    case CountPositions => said == [PositionsAsked(seen.positions)]
    case Size =>
      if AsksProfit(cfg, p, o)
      then said == [ProfitAsked(p.action, symbol, EntryPrice(p, o), p.stopLoss.value, seen.profit)]
      else said == [] && seen.profit.None?
    case Check =>
      && |said| == 1 && said[0].CheckAsked? && said[0].request == OrderRequest(cfg, p, o)
      && seen.check == said[0].checked.GetOr(None)
    case Send =>
      if AsksSend(cfg, p, o) then said == [SendAsked(OrderRequest(cfg, p, o), a.result)] else said == []
    case FinishExec => said == [ClockRead(a.finishedAt)]
    case _ => said == []
  }

  predicate Harmless(said: seq<Exchange>) {
    forall i | 0 <= i < |said| :: !said[i].CheckAsked? && !said[i].SendAsked?
  }

  /** What is said during an event.  A dying process may have asked anything but a check or a
      send, which are events of their own. */
  predicate Told(cfg: Settings, w: World, e: Event, said: seq<Exchange>) {
    match e
    case Advance(k, a) =>
      if k < |w.workers| && w.workers[k].Running? then StepTold(cfg, w.workers[k].step, w.workers[k].job, a, said)
      else said == []
    case Reconcile(k, reachable, deals) =>
      if k < |w.workers| && w.workers[k].Recovering? && w.workers[k].queue != [] then Reconciliation(said, reachable, deals)
      else said == []
    case Kill(_) => Harmless(said)
    case Raise(_) => Harmless(said)
    case _ => said == []
  }

  predicate Reconciliation(said: seq<Exchange>, reachable: bool, deals: seq<string>) {
    if reachable then
      && said != [] && said[|said| - 1].HistoryAsked? && deals == said[|said| - 1].comments.GetOr([])
      && Connects(said[..|said| - 1], true)
    else Connects(said, false) && deals == []
  }

  function Flat(heard: seq<seq<Exchange>>): seq<Exchange> {
    if heard == [] then [] else Flat(heard[..|heard| - 1]) + heard[|heard| - 1]
  }

  /** The log is, event by event, what was said during the run. */
  ghost predicate Transcribed(
    cfg: Settings, w: World, events: seq<Event>, heard: seq<seq<Exchange>>, log: seq<Exchange>)
  {
    && |heard| == |events| && log == Flat(heard)
    && forall i | 0 <= i < |events| :: Told(cfg, Run(cfg, w, events[..i]), events[i], heard[i])
  }

  lemma TranscriptGrows(
    cfg: Settings, w: World, events: seq<Event>, heard: seq<seq<Exchange>>, log: seq<Exchange>, e: Event, said: seq<Exchange>)
    requires Transcribed(cfg, w, events, heard, log) && Told(cfg, Run(cfg, w, events), e, said)
    ensures Transcribed(cfg, w, events + [e], heard + [said], log + said)
  {
    hide Run, Told;
    assert (heard + [said])[..|heard|] == heard;
    forall i | 0 <= i < |events| + 1
      ensures Told(cfg, Run(cfg, w, (events + [e])[..i]), (events + [e])[i], (heard + [said])[i])
    {
      if i < |events| {
        assert (events + [e])[..i] == events[..i];
      } else {
        assert (events + [e])[..i] == events;
      }
    }
  }

  // ---- what an attempt has heard ----

  ghost predicate Alive(log: seq<Exchange>) {
    InitializeAsked(true) in log || exists account: Account :: AccountAsked(Some(account)) in log
  }

  ghost predicate HeardAccount(o: Observed, log: seq<Exchange>) {
    if o.connected then AccountAsked(o.account) in log && Alive(log) else o.account.None?
  }

  /** `n` successive exchanges of the log are the ones that end in this symbol information. */
  ghost predicate EnsuredAt(symbol: string, info: Option<SymbolInfo>, log: seq<Exchange>, i: nat, n: nat) {
    i + n <= |log| && EnsuredSymbol(symbol, log[i..i + n], info)
  }

  ghost predicate HeardSymbol(symbol: string, o: Observed, log: seq<Exchange>) {
    exists i: nat, n: nat :: EnsuredAt(symbol, o.info, log, i, n)
  }

  ghost predicate HeardTick(symbol: string, o: Observed, log: seq<Exchange>) {
    if o.info.Some? then exists answer :: TickAsked(symbol, answer) in log && QuoteGiven(answer, o.tick) else o.tick.None?
  }

  ghost predicate HeardTime(symbol: string, o: Observed, log: seq<Exchange>) {
    exists answer :: TickAsked(symbol, answer) in log && TimeGiven(answer, o.brokerNow)
  }

  ghost predicate HeardProfit(cfg: Settings, p: Payload, o: Observed, log: seq<Exchange>) {
    if AsksProfit(cfg, p, o)
    then ProfitAsked(p.action, MappedSymbol(cfg, p), EntryPrice(p, o), p.stopLoss.value, o.profit) in log
    else o.profit.None?
  }

  ghost predicate HeardCheck(cfg: Settings, p: Payload, o: Observed, log: seq<Exchange>) {
    exists checked: Option<Option<int>> :: CheckAsked(OrderRequest(cfg, p, o), checked) in log && o.check == checked.GetOr(None)
  }

  ghost predicate HeardSend(c: Outcome, log: seq<Exchange>) {
    c.Sent? ==> SendAsked(c.order.request, c.order.result) in log
  }

  /** The observations of the gates that an attempt has evaluated, `n` of them and perhaps the
      check, are answers in the log to questions about its own symbol, prices and request. */
  ghost predicate Heard(cfg: Settings, p: Payload, o: Observed, n: nat, asked: bool, log: seq<Exchange>) {
    var symbol := MappedSymbol(cfg, p);
    && (n > 0 ==> ClockRead(o.now) in log)
    && (n > 3 ==> HeardAccount(o, log))
    && (n > 6 ==> HeardSymbol(symbol, o, log) && HeardTick(symbol, o, log))
    && (n > 8 ==> HeardTime(symbol, o, log))
    && (n > 12 ==> PositionsAsked(o.positions) in log)
    && (n > 14 ==> HeardProfit(cfg, p, o, log))
    && (asked ==> HeardCheck(cfg, p, o, log))
  }

  ghost predicate JobHeard(cfg: Settings, s: Step, j: Job, log: seq<Exchange>) {
    Heard(cfg, j.payload, j.seen, Evaluated(s, j.outcome), Asked(s, j.outcome), log) && HeardSend(j.outcome, log)
  }

  ghost predicate OrderHeard(cfg: Settings, o: Order, log: seq<Exchange>) {
    Heard(cfg, o.payload, o.seen, GATES, true, log) && SendAsked(o.request, o.result) in log
  }

  lemma HeardStays(cfg: Settings, p: Payload, o: Observed, n: nat, asked: bool, log: seq<Exchange>, more: seq<Exchange>)
    requires Heard(cfg, p, o, n, asked, log)
    ensures Heard(cfg, p, o, n, asked, log + more)
  {
    hide AsksProfit, OrderRequest, MappedSymbol, QuoteGiven, TimeGiven, EntryPrice, HeardSymbol;
    var all := log + more;
    forall x | x in log
      ensures x in all
    {
    }
    if n > 6 {
      SymbolStays(MappedSymbol(cfg, p), o, log, more);
    }
  }

  lemma SymbolStays(symbol: string, o: Observed, log: seq<Exchange>, more: seq<Exchange>)
    requires HeardSymbol(symbol, o, log)
    ensures HeardSymbol(symbol, o, log + more)
  {
    hide EnsuredSymbol;
    var i: nat, n: nat :| EnsuredAt(symbol, o.info, log, i, n);
    assert (log + more)[i..i + n] == log[i..i + n];
    assert EnsuredAt(symbol, o.info, log + more, i, n);
  }

  /** Observations that agree on what `n` gates read were heard alike. */
  lemma HeardAlike(cfg: Settings, p: Payload, o: Observed, q: Observed, n: nat, log: seq<Exchange>)
    requires Agree(o, q, n) && Heard(cfg, p, o, n, false, log)
    ensures Heard(cfg, p, q, n, false, log)
  {
    hide MappedSymbol, EnsuredAt, QuoteGiven, TimeGiven, Alive, AccountKey;
    if n > 14 {
      ProfitAlike(cfg, p, o, q, log);
    }
  }

  lemma ProfitAlike(cfg: Settings, p: Payload, o: Observed, q: Observed, log: seq<Exchange>)
    requires o.account == q.account && o.tick == q.tick && o.baseline == q.baseline && o.profit == q.profit
    requires HeardProfit(cfg, p, o, log)
    ensures HeardProfit(cfg, p, q, log)
  {
  }

  lemma ThroughHeard(
    cfg: Settings, x: Job, from: nat, until: nat, effect: Effect, next: Step, log: seq<Exchange>)
    requires from <= until <= 17 && GatesBefore(next) == until && x.outcome.Undecided? && !Asked(next, Undecided)
    requires Heard(cfg, x.payload, x.seen, until, false, log)
    ensures var m := Through(cfg, x, from, until, effect, next);
      m.phase.Running? && JobHeard(cfg, m.phase.step, m.phase.job, log)
  {
    hide Failing, HeardAccount, HeardSymbol, HeardTick, HeardTime, HeardProfit, HeardCheck;
  }

  /** What the slice of a step adds to what was heard. */
  lemma IdentifyHeard(cfg: Settings, j: Job, a: Answer, log: seq<Exchange>, said: seq<Exchange>)
    requires Heard(cfg, j.payload, j.seen, 3, false, log) && StepTold(cfg, Identify, j, a, said)
    ensures Heard(cfg, j.payload, Identified(j.seen, a.seen), 6, false, log + said)
  {
    var q := Identified(j.seen, a.seen);
    HeardStays(cfg, j.payload, j.seen, 3, false, log, said);
    if a.seen.connected {
      var dial := said[..|said| - 1];
      assert said[|said| - 1] in log + said;
      ConnectsAlive(dial);
      assert forall x | x in dial :: x in said;
      assert Alive(log + said);
    }
  }

  lemma ConnectsAlive(said: seq<Exchange>)
    requires Connects(said, true)
    ensures Alive(said)
  {
    if Probed(true, said, true) {
      assert said[0] == AccountAsked(Some(said[0].account.value));
      assert said[0] in said;
    } else if Tried(said, true) {
      assert said[|said| - 1] == InitializeAsked(true);
    } else {
      var rest := said[1..];
      assert rest[|rest| - 1] == InitializeAsked(true) && rest[|rest| - 1] == said[|said| - 1];
    }
  }

  lemma QuoteHeard(cfg: Settings, j: Job, a: Answer, log: seq<Exchange>, said: seq<Exchange>)
    requires Heard(cfg, j.payload, j.seen, 6, false, log) && StepTold(cfg, Quote, j, a, said)
    ensures Heard(cfg, j.payload, j.seen.(info := a.seen.info, tick := a.seen.tick), 8, false, log + said)
  {
    hide Alive, EnsuredSymbol, HeardSymbol, QuoteGiven;
    var q := j.seen.(info := a.seen.info, tick := a.seen.tick);
    var symbol := MappedSymbol(cfg, j.payload);
    HeardStays(cfg, j.payload, j.seen, 6, false, log, said);
    if a.seen.info.Some? {
      assert said[|said| - 1] == TickAsked(symbol, said[|said| - 1].tick) && said[|said| - 1] in log + said;
      SymbolHeard(symbol, q, log, said, |said| - 1);
    } else {
      assert said[..|said|] == said;
      SymbolHeard(symbol, q, log, said, |said|);
    }
  }

  lemma SymbolHeard(symbol: string, o: Observed, log: seq<Exchange>, said: seq<Exchange>, n: nat)
    requires n <= |said| && EnsuredSymbol(symbol, said[..n], o.info)
    ensures HeardSymbol(symbol, o, log + said)
  {
    hide EnsuredSymbol;
    assert (log + said)[|log|..|log| + n] == said[..n];
    assert EnsuredAt(symbol, o.info, log + said, |log|, n);
  }

  lemma GuardHeard(cfg: Settings, j: Job, a: Answer, log: seq<Exchange>, said: seq<Exchange>)
    requires Heard(cfg, j.payload, j.seen, 8, false, log) && StepTold(cfg, Guard, j, a, said)
    ensures Heard(cfg, j.payload, j.seen.(brokerNow := a.seen.brokerNow), 11, false, log + said)
  {
    hide Alive;
    var symbol := MappedSymbol(cfg, j.payload);
    HeardStays(cfg, j.payload, j.seen, 8, false, log, said);
    assert said[0] == TickAsked(symbol, said[0].tick) && said[0] in log + said;
  }

  lemma SizeHeard(cfg: Settings, j: Job, a: Answer, log: seq<Exchange>, said: seq<Exchange>)
    requires Heard(cfg, j.payload, j.seen, 14, false, log) && StepTold(cfg, Size, j, a, said)
    ensures Heard(cfg, j.payload, Priced(j.payload, j.seen, a.seen), 17, false, log + said)
  {
    hide Alive, VolumeOf;
    var q := Priced(j.payload, j.seen, a.seen);
    HeardStays(cfg, j.payload, j.seen, 14, false, log, said);
    HeardAlike(cfg, j.payload, j.seen, q, 14, log + said);
    assert AsksProfit(cfg, j.payload, q) == AsksProfit(cfg, j.payload, j.seen);
    assert said != [] ==> said[0] in log + said;
  }

  lemma CheckHeard(cfg: Settings, j: Job, a: Answer, log: seq<Exchange>, said: seq<Exchange>)
    requires Heard(cfg, j.payload, j.seen, 17, false, log) && StepTold(cfg, Check, j, a, said)
    ensures Heard(cfg, j.payload, j.seen.(check := a.seen.check), 17, true, log + said)
  {
    hide Alive, VolumeOf;
    var q := j.seen.(check := a.seen.check);
    HeardStays(cfg, j.payload, j.seen, 17, false, log, said);
    HeardAlike(cfg, j.payload, j.seen, q, 17, log + said);
    assert said[0] == CheckAsked(OrderRequest(cfg, j.payload, q), said[0].checked) && said[0] in log + said;
  }

  lemma SliceHeard(cfg: Settings, t: Tables, s: Step, j: Job, a: Answer, log: seq<Exchange>, said: seq<Exchange>)
    requires j.row < |t.signals| && JobHeard(cfg, s, j, log) && j.outcome.Undecided? && StepTold(cfg, s, j, a, said)
    requires s.Admit? || s.Identify? || s.Quote? || s.Guard? || s.CountDay? || s.CountPositions?
    ensures var m := Decide(cfg, t, s, j, a);
      m.phase.Running? && JobHeard(cfg, m.phase.step, m.phase.job, log + said)
  {
    hide Through, Heard, Identification, Quotation;
    var o, p := j.seen, j.payload;
    match s
    case Admit =>
      AdmitHeard(cfg, j, a, log, said);
      ThroughHeard(cfg, j.(seen := o.(now := a.seen.now)), 0, 3, UpdateExec(j.exec, SymbolField(MappedSymbol(cfg, p))), Normalize, log + said);
    case Identify =>
      IdentifyHeard(cfg, j, a, log, said);
      var x := j.(seen := Identified(o, a.seen));
      ThroughHeard(cfg, x, 3, 6, UpdateExec(x.exec, AccountField(Key(x.seen))), Quote, log + said);
    case Quote =>
      QuoteHeard(cfg, j, a, log, said);
      var x := j.(seen := o.(info := a.seen.info, tick := a.seen.tick));
      ThroughHeard(cfg, x, 6, 8, UpdateExec(x.exec, EntryField(EntryPrice(p, x.seen))), Guard, log + said);
    case Guard =>
      GuardHeard(cfg, j, a, log, said);
      ThroughHeard(cfg, j.(seen := o.(brokerNow := a.seen.brokerNow)), 8, 11, NoEffect, CountDay, log + said);
    case CountDay =>
      CountHeard(cfg, t, j, log, said);
      var x := j.(seen := o.(trades := CountTrades(t.execs, Key(o), DayStart(o))));
      ThroughHeard(cfg, x, 11, 12, NoEffect, CountPositions, log + said);
    case CountPositions =>
      PositionsHeard(cfg, j, a, log, said);
      ThroughHeard(cfg, j.(seen := o.(positions := a.seen.positions)), 12, 14, NoEffect, ReadBaseline, log + said);
  }

  lemma AdmitHeard(cfg: Settings, j: Job, a: Answer, log: seq<Exchange>, said: seq<Exchange>)
    requires StepTold(cfg, Admit, j, a, said)
    ensures Heard(cfg, j.payload, j.seen.(now := a.seen.now), 3, false, log + said)
  {
    assert said[0] in log + said;
  }

  lemma CountHeard(cfg: Settings, t: Tables, j: Job, log: seq<Exchange>, said: seq<Exchange>)
    requires Heard(cfg, j.payload, j.seen, 11, false, log)
    ensures Heard(cfg, j.payload, j.seen.(trades := CountTrades(t.execs, Key(j.seen), DayStart(j.seen))), 12, false, log + said)
  {
    hide Alive, CountTrades;
    HeardStays(cfg, j.payload, j.seen, 11, false, log, said);
  }

  lemma PositionsHeard(cfg: Settings, j: Job, a: Answer, log: seq<Exchange>, said: seq<Exchange>)
    requires Heard(cfg, j.payload, j.seen, 12, false, log) && StepTold(cfg, CountPositions, j, a, said)
    ensures Heard(cfg, j.payload, j.seen.(positions := a.seen.positions), 14, false, log + said)
  {
    hide Alive;
    HeardStays(cfg, j.payload, j.seen, 12, false, log, said);
    assert said[0] in log + said;
  }

  lemma BaselineHeard(cfg: Settings, p: Payload, o: Observed, baseline: real, log: seq<Exchange>, said: seq<Exchange>)
    requires Heard(cfg, p, o, 14, false, log)
    ensures Heard(cfg, p, o.(baseline := baseline), 14, false, log + said)
  {
    hide Heard;
    HeardStays(cfg, p, o, 14, false, log, said);
    HeardAlike(cfg, p, o, o.(baseline := baseline), 14, log + said);
  }

  lemma BaselineStepHeard(cfg: Settings, t: Tables, s: Step, j: Job, a: Answer, log: seq<Exchange>, said: seq<Exchange>)
    requires j.row < |t.signals| && JobHeard(cfg, s, j, log) && j.outcome.Undecided? && (s.ReadBaseline? || s.WriteBaseline?)
    ensures var m := Decide(cfg, t, s, j, a);
      m.phase.Running? && JobHeard(cfg, m.phase.step, m.phase.job, log + said)
  {
    hide Heard;
    var m := Decide(cfg, t, s, j, a);
    BaselineHeard(cfg, j.payload, j.seen, m.phase.job.seen.baseline, log, said);
  }

  lemma SizeStepHeard(cfg: Settings, t: Tables, j: Job, a: Answer, log: seq<Exchange>, said: seq<Exchange>)
    requires j.row < |t.signals| && JobHeard(cfg, Size, j, log) && j.outcome.Undecided? && StepTold(cfg, Size, j, a, said)
    ensures var m := Decide(cfg, t, Size, j, a);
      m.phase.Running? ==> JobHeard(cfg, m.phase.step, m.phase.job, log + said)
  {
    hide Heard, Through, StepTold, VolumeOf;
    SizeHeard(cfg, j, a, log, said);
    var x := j.(seen := Priced(j.payload, j.seen, a.seen));
    ThroughHeard(cfg, x, 14, 17, UpdateExec(x.exec, VolumeField(PlannedVolume(x.seen))), Check, log + said);
  }

  lemma CheckStepHeard(cfg: Settings, t: Tables, j: Job, a: Answer, log: seq<Exchange>, said: seq<Exchange>)
    requires j.row < |t.signals| && JobHeard(cfg, Check, j, log) && j.outcome.Undecided? && StepTold(cfg, Check, j, a, said)
    ensures var m := Decide(cfg, t, Check, j, a);
      m.phase.Running? && JobHeard(cfg, m.phase.step, m.phase.job, log + said)
  {
    hide Heard, StepTold;
    CheckHeard(cfg, j, a, log, said);
  }

  /** At the send nothing more is observed; what goes out is in the log if it does. */
  lemma SendHeard(cfg: Settings, t: Tables, j: Job, a: Answer, log: seq<Exchange>, said: seq<Exchange>)
    requires j.row < |t.signals| && JobHeard(cfg, Send, j, log) && j.outcome.Undecided? && StepTold(cfg, Send, j, a, said)
    ensures var m := Decide(cfg, t, Send, j, a);
      && m.phase.Running? && JobHeard(cfg, m.phase.step, m.phase.job, log + said)
      && (m.effect.SendOrder? ==> OrderHeard(cfg, m.effect.order, log + said))
  {
    hide Heard, GateResult, OrderRequest;
    HeardStays(cfg, j.payload, j.seen, 17, true, log, said);
    LateGates(cfg, j.payload, j.seen, log + said);
    var fails := Failing(cfg, j.payload, j.seen);
    var r := FirstIn(fails, 17, 19);
    if r.None? {
      assert Rank(CheckPassed) == 17 && Rank(LiveAllowed) == 18;
      assert CheckPassed !in fails && LiveAllowed !in fails;
      assert said[0] in log + said;
    }
  }

  lemma LateGates(cfg: Settings, p: Payload, o: Observed, log: seq<Exchange>)
    requires Heard(cfg, p, o, 17, true, log)
    ensures forall n: nat | 17 <= n :: Heard(cfg, p, o, n, true, log)
  {
  }

  lemma QuietHeard(cfg: Settings, t: Tables, s: Step, j: Job, a: Answer, log: seq<Exchange>, said: seq<Exchange>)
    requires j.row < |t.signals| && JobHeard(cfg, s, j, log) && OutcomeOk(s, j.outcome)
    requires s.Insert? || s.Normalize? || s.RecordCheck? || s.RecordSend? || s.FinishExec?
    ensures var m := Decide(cfg, t, s, j, a);
      m.phase.Running? && JobHeard(cfg, m.phase.step, m.phase.job, log + said)
  {
    hide Failing, OrderRequest, AsksProfit;
    HeardStays(cfg, j.payload, j.seen, Evaluated(s, j.outcome), Asked(s, j.outcome), log, said);
  }

  /** A step takes its observations from what is said during it. */
  lemma DecideHeard(cfg: Settings, t: Tables, s: Step, j: Job, a: Answer, log: seq<Exchange>, said: seq<Exchange>)
    requires j.row < |t.signals| && JobHeard(cfg, s, j, log) && OutcomeOk(s, j.outcome) && StepTold(cfg, s, j, a, said)
    ensures var m := Decide(cfg, t, s, j, a);
      && (m.phase.Running? ==> JobHeard(cfg, m.phase.step, m.phase.job, log + said))
      && (m.effect.SendOrder? ==> OrderHeard(cfg, m.effect.order, log + said))
  {
    hide Decide, StepTold, JobHeard, OrderHeard;
    OnlySendSends(cfg, t, s, j, a);
    FinishIdles(cfg, t, j, a);
    match s
    case Size => SizeStepHeard(cfg, t, j, a, log, said);
    case Check => CheckStepHeard(cfg, t, j, a, log, said);
    case Send => SendHeard(cfg, t, j, a, log, said);
    case ReadBaseline => BaselineStepHeard(cfg, t, s, j, a, log, said);
    case WriteBaseline => BaselineStepHeard(cfg, t, s, j, a, log, said);
    case FinishSignal =>
    case _ =>
      if s.Insert? || s.Normalize? || s.RecordCheck? || s.RecordSend? || s.FinishExec? {
        QuietHeard(cfg, t, s, j, a, log, said);
      } else {
        SliceHeard(cfg, t, s, j, a, log, said);
      }
  }

  lemma FinishIdles(cfg: Settings, t: Tables, j: Job, a: Answer)
    requires j.row < |t.signals|
    ensures !Decide(cfg, t, FinishSignal, j, a).phase.Running?
  {
  }

  // ---- every order of a transcribed run ----

  ghost predicate AllHeard(cfg: Settings, w: World, log: seq<Exchange>) {
    && (forall k | 0 <= k < |w.workers| && w.workers[k].Running? :: JobHeard(cfg, w.workers[k].step, w.workers[k].job, log))
    && (forall n | 0 <= n < |w.orders| :: OrderHeard(cfg, w.orders[n], log))
  }

  lemma JobHeardStays(cfg: Settings, s: Step, j: Job, log: seq<Exchange>, more: seq<Exchange>)
    requires JobHeard(cfg, s, j, log)
    ensures JobHeard(cfg, s, j, log + more)
  {
    hide Heard;
    HeardStays(cfg, j.payload, j.seen, Evaluated(s, j.outcome), Asked(s, j.outcome), log, more);
  }

  lemma OrderHeardStays(cfg: Settings, o: Order, log: seq<Exchange>, more: seq<Exchange>)
    requires OrderHeard(cfg, o, log)
    ensures OrderHeard(cfg, o, log + more)
  {
    hide Heard;
    HeardStays(cfg, o.payload, o.seen, GATES, true, log, more);
  }

  lemma MoverHeard(cfg: Settings, w: World, e: Event, log: seq<Exchange>, said: seq<Exchange>)
    requires Queue(w) && Workers(w) && AllHeard(cfg, w, log) && Told(cfg, w, e, said)
    requires !e.Submit? && !e.PositionClosed? && e.k < |w.workers|
    ensures var m := Choose(cfg, w, e);
      && (m.phase.Running? ==> JobHeard(cfg, m.phase.step, m.phase.job, log + said))
      && (m.effect.SendOrder? ==> OrderHeard(cfg, m.effect.order, log + said))
  {
    hide Decide, StepTold, JobHeard, OrderHeard;
    var was := w.workers[e.k];
    assert PhaseOk(w, was);
    if was.Running? {
      assert JobHeard(cfg, was.step, was.job, log);
      JobHeardStays(cfg, was.step, was.job, log, said);
      if e.Advance? {
        DecideHeard(cfg, w.t, was.step, was.job, e.answer, log, said);
      }
    } else {
      NewJobHeard(cfg, w, e, log + said);
    }
  }

  lemma NewJobHeard(cfg: Settings, w: World, e: Event, log: seq<Exchange>)
    requires !e.Submit? && !e.PositionClosed? && e.k < |w.workers| && !w.workers[e.k].Running?
    ensures var m := Choose(cfg, w, e);
      !m.effect.SendOrder? && (m.phase.Running? ==> JobHeard(cfg, m.phase.step, m.phase.job, log))
  {
  }

  lemma EventKeepsHeard(cfg: Settings, w: World, e: Event, log: seq<Exchange>, said: seq<Exchange>)
    requires Queue(w) && Workers(w) && AllHeard(cfg, w, log) && Told(cfg, w, e, said)
    ensures AllHeard(cfg, Apply(cfg, w, e), log + said)
  {
    hide Choose, Told, JobHeard, OrderHeard, Queue, Workers, PerformOn;
    var v := Apply(cfg, w, e);
    if !e.Submit? && !e.PositionClosed? && e.k < |w.workers| {
      MoverHeard(cfg, w, e, log, said);
    }
    forall k | 0 <= k < |v.workers| && v.workers[k].Running?
      ensures JobHeard(cfg, v.workers[k].step, v.workers[k].job, log + said)
    {
      if v.workers[k] == w.workers[k] {
        JobHeardStays(cfg, v.workers[k].step, v.workers[k].job, log, said);
      }
    }
    forall n | 0 <= n < |v.orders|
      ensures OrderHeard(cfg, v.orders[n], log + said)
    {
      if n < |w.orders| {
        assert OrderHeard(cfg, w.orders[n], log);
        OrderHeardStays(cfg, w.orders[n], log, said);
      }
    }
  }

  /** In a transcribed run every order rests on answers that the terminal and the host's clock
      gave: about its own symbol and prices, and of a check of its very request. */
  lemma {:induction false} RunIsHeard(
    cfg: Settings, n: nat, open: nat, events: seq<Event>, heard: seq<seq<Exchange>>, log: seq<Exchange>)
    requires Transcribed(cfg, Initial(n, open), events, heard, log)
    ensures AllHeard(cfg, Run(cfg, Initial(n, open), events), log)
    decreases |events|
  {
    hide Told, Apply;
    if events != [] {
      var last := |events| - 1;
      var w := Run(cfg, Initial(n, open), events[..last]);
      forall i | 0 <= i < last
        ensures Told(cfg, Run(cfg, Initial(n, open), events[..last][..i]), events[..last][i], heard[..last][i])
      {
        assert events[..last][..i] == events[..i];
      }
      RunIsHeard(cfg, n, open, events[..last], heard[..last], Flat(heard[..last]));
      RunIsSafe(cfg, n, open, events[..last]);
      EventKeepsHeard(cfg, w, events[last], Flat(heard[..last]), heard[last]);
    }
  }
}
