/** The MetaTrader 5 gateway over an adversarial terminal, and the host's clock. */
module Gateway {
  import opened Types
  import opened Dialogue

  /** Everything the bridge was told from outside, in order. */
  class Tape {
    ghost var log: seq<Exchange>

    constructor ()
      ensures log == []
    {
      log := [];
    }
  }

  class HostClock {
    const tape: Tape

    constructor (tape: Tape)
      ensures this.tape == tape
    {
      this.tape := tape;
    }

    method Now() returns (now: int)
      modifies tape
      ensures tape.log == old(tape.log) + [ClockRead(now)]
    {
      now := *;
      tape.log := tape.log + [ClockRead(now)];
    }
  }

  /** The terminal answers what it likes, and each answer is on the tape. */
  class Terminal {
    const tape: Tape
    var sent: seq<Request>

    constructor (tape: Tape)
      ensures this.tape == tape && sent == []
    {
      this.tape, sent := tape, [];
    }

    method AccountInfo() returns (account: Option<Account>)
      modifies tape
      ensures tape.log == old(tape.log) + [AccountAsked(account)]
    {
      account := *;
      tape.log := tape.log + [AccountAsked(account)];
    }

    method Initialize() returns (ok: bool)
      modifies tape
      ensures tape.log == old(tape.log) + [InitializeAsked(ok)]
    {
      ok := *;
      tape.log := tape.log + [InitializeAsked(ok)];
    }

    method Shutdown()
      modifies tape
      ensures tape.log == old(tape.log) + [ShutdownAsked]
    {
      tape.log := tape.log + [ShutdownAsked];
    }

    method SymbolInfoOf(symbol: string) returns (listed: Option<Listed>)
      modifies tape
      ensures tape.log == old(tape.log) + [SymbolAsked(symbol, listed)]
    {
      listed := *;
      tape.log := tape.log + [SymbolAsked(symbol, listed)];
    }

    method SymbolSelect(symbol: string) returns (selected: bool)
      modifies tape
      ensures tape.log == old(tape.log) + [SelectAsked(symbol, selected)]
    {
      selected := *;
      tape.log := tape.log + [SelectAsked(symbol, selected)];
    }

    method SymbolInfoTick(symbol: string) returns (tick: Option<TickAnswer>)
      modifies tape
      ensures tape.log == old(tape.log) + [TickAsked(symbol, tick)]
    {
      tick := *;
      tape.log := tape.log + [TickAsked(symbol, tick)];
    }

    /** The magic numbers of the open positions, or None when the query fails. */
    method PositionsGet() returns (magics: Option<seq<int>>)
      modifies tape
      ensures tape.log == old(tape.log) + [PositionsAsked(magics)]
    {
      magics := *;
      tape.log := tape.log + [PositionsAsked(magics)];
    }

    method HistoryDealsGet() returns (comments: Option<seq<string>>)
      modifies tape
      ensures tape.log == old(tape.log) + [HistoryAsked(comments)]
    {
      comments := *;
      tape.log := tape.log + [HistoryAsked(comments)];
    }

    method OrderCalcProfit(action: Action, symbol: string, entry: real, stop: real) returns (profit: Option<real>)
      modifies tape
      ensures tape.log == old(tape.log) + [ProfitAsked(action, symbol, entry, stop, profit)]
    {
      profit := *;
      tape.log := tape.log + [ProfitAsked(action, symbol, entry, stop, profit)];
    }

    /** None for no result at all, else a result whose code may be missing. */
    method OrderCheck(request: Request) returns (checked: Option<Option<int>>)
      modifies tape
      ensures tape.log == old(tape.log) + [CheckAsked(request, checked)]
    {
      checked := *;
      tape.log := tape.log + [CheckAsked(request, checked)];
    }

    /** `filled` and `opens` are what really happened; the bridge never learns them. */
    method OrderSend(request: Request) returns (result: Option<SendResult>, ghost filled: bool, ghost opens: bool)
      modifies tape, this`sent
      ensures tape.log == old(tape.log) + [SendAsked(request, result)] && sent == old(sent) + [request]
    {
      result, filled, opens := *, *, *;
      sent := sent + [request];
      tape.log := tape.log + [SendAsked(request, result)];
    }
  }

  class MT5Gateway {
    /** Whether the SDK could be imported; without it `mt5` is never called. */
    const available: bool
    const mt5: Terminal
    var connected: bool

    constructor (available: bool, mt5: Terminal)
      ensures this.available == available && this.mt5 == mt5 && !connected
    {
      this.available, this.mt5 := available, mt5;
      connected := false;
    }

    /** A cached connection is believed only if the terminal still answers the probe. */
    method Connected() returns (yes: bool)
      modifies this`connected, mt5.tape
      ensures old(mt5.tape.log) <= mt5.tape.log
      ensures Probed(old(connected) && available, mt5.tape.log[|old(mt5.tape.log)|..], yes)
      ensures available ==> connected == yes
      ensures !available ==> connected == old(connected)
    {
      if !connected || !available {
        return false;
      }
      var account := mt5.AccountInfo();
      if account.None? {
        connected := false;
      }
      yes := connected;
    }

    /** The connection is what the one call answered. */
    method Initialize() returns (ok: bool)
      modifies this`connected, mt5.tape
      ensures !available ==> !ok && connected == old(connected) && mt5.tape.log == old(mt5.tape.log)
      ensures available ==> connected == ok && mt5.tape.log == old(mt5.tape.log) + [InitializeAsked(ok)]
    {
      if !available {
        return false;
      }
      ok := mt5.Initialize();
      connected := ok;
    }

    method Shutdown()
      modifies this`connected, mt5.tape
      ensures !connected
      ensures mt5.tape.log == old(mt5.tape.log) + if available && old(connected) then [ShutdownAsked] else []
    {
      if available && connected {
        mt5.Shutdown();
      }
      connected := false;
    }

    method AccountInfo() returns (account: Option<Account>)
      modifies mt5.tape
      ensures !available ==> account.None? && mt5.tape.log == old(mt5.tape.log)
      ensures available ==> mt5.tape.log == old(mt5.tape.log) + [AccountAsked(account)]
    {
      account := None;
      if available {
        account := mt5.AccountInfo();
      }
    }

    /** A symbol that is missing or hidden is selected first, once, and looked up again. */
    method EnsureSymbol(symbol: string) returns (info: Option<SymbolInfo>)
      modifies mt5.tape
      ensures !available ==> info.None? && mt5.tape.log == old(mt5.tape.log)
      ensures available ==> old(mt5.tape.log) <= mt5.tape.log
      ensures available ==> EnsuredSymbol(symbol, mt5.tape.log[|old(mt5.tape.log)|..], info)
    {
      if !available {
        return None;
      }
      ghost var before := mt5.tape.log;
      var listed := mt5.SymbolInfoOf(symbol);
      if listed.Some? && listed.value.visible.GetOr(true) {
        return Some(listed.value.info);
      }
      var selected := mt5.SymbolSelect(symbol);
      if !selected {
        assert mt5.tape.log[|before|..] == [SymbolAsked(symbol, listed), SelectAsked(symbol, false)];
        return None;
      }
      var again := mt5.SymbolInfoOf(symbol);
      info := None;
      if again.Some? {
        info := Some(again.value.info);
      }
      assert mt5.tape.log[|before|..] == [SymbolAsked(symbol, listed), SelectAsked(symbol, true), SymbolAsked(symbol, again)];
    }

    method SymbolInfoTick(symbol: string) returns (tick: Option<TickAnswer>)
      modifies mt5.tape
      ensures !available ==> tick.None? && mt5.tape.log == old(mt5.tape.log)
      ensures available ==> mt5.tape.log == old(mt5.tape.log) + [TickAsked(symbol, tick)]
    {
      tick := None;
      if available {
        tick := mt5.SymbolInfoTick(symbol);
      }
    }

    /** The broker's clock from a tick of its own, or None: never the host's clock. */
    method ServerTime(symbol: string) returns (time: Option<int>)
      modifies mt5.tape
      ensures !available ==> time.None? && mt5.tape.log == old(mt5.tape.log)
      ensures available ==> old(mt5.tape.log) <= mt5.tape.log
      ensures available ==>
        var said := mt5.tape.log[|old(mt5.tape.log)|..];
        AskedTick(symbol, said) && TimeGiven(said[0].tick, time)
    {
      var tick := SymbolInfoTick(symbol);
      if tick.None? {
        return None;
      }
      time := tick.value.time;
    }

    /** An unanswered query stays None; it is never an empty list. */
    method PositionsGet() returns (magics: Option<seq<int>>)
      modifies mt5.tape
      ensures !available ==> magics.None? && mt5.tape.log == old(mt5.tape.log)
      ensures available ==> mt5.tape.log == old(mt5.tape.log) + [PositionsAsked(magics)]
    {
      magics := None;
      if available {
        magics := mt5.PositionsGet();
      }
    }

    /** Unlike positions, unanswered history is an empty list. */
    method HistoryDealsGet() returns (comments: seq<string>)
      modifies mt5.tape
      ensures !available ==> comments == [] && mt5.tape.log == old(mt5.tape.log)
      ensures available ==> |mt5.tape.log| == |old(mt5.tape.log)| + 1 && old(mt5.tape.log) <= mt5.tape.log
      ensures available ==>
        var answer := mt5.tape.log[|old(mt5.tape.log)|];
        answer.HistoryAsked? && comments == answer.comments.GetOr([])
    {
      comments := [];
      if available {
        var answer := mt5.HistoryDealsGet();
        comments := answer.GetOr([]);
      }
    }

    method OrderCalcProfit(action: Action, symbol: string, entry: real, stop: real) returns (profit: Option<real>)
      modifies mt5.tape
      ensures !available ==> profit.None? && mt5.tape.log == old(mt5.tape.log)
      ensures available ==> mt5.tape.log == old(mt5.tape.log) + [ProfitAsked(action, symbol, entry, stop, profit)]
    {
      profit := None;
      if available {
        profit := mt5.OrderCalcProfit(action, symbol, entry, stop);
      }
    }

    method OrderCheck(request: Request) returns (checked: Option<Option<int>>)
      modifies mt5.tape
      ensures !available ==> checked.None? && mt5.tape.log == old(mt5.tape.log)
      ensures available ==> mt5.tape.log == old(mt5.tape.log) + [CheckAsked(request, checked)]
    {
      checked := None;
      if available {
        checked := mt5.OrderCheck(request);
      }
    }

    method OrderSend(request: Request) returns (result: Option<SendResult>, ghost filled: bool, ghost opens: bool)
      modifies mt5.tape, mt5`sent
      ensures !available ==> result.None? && mt5.tape.log == old(mt5.tape.log) && mt5.sent == old(mt5.sent)
      ensures available ==> mt5.tape.log == old(mt5.tape.log) + [SendAsked(request, result)]
      ensures available ==> mt5.sent == old(mt5.sent) + [request]
    {
      result, filled, opens := None, false, false;
      if available {
        result, filled, opens := mt5.OrderSend(request);
      }
    }
  }
}
