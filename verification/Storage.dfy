/** The SQLite wrapper.  Each method is one locked transaction; its contract is the table
    function that the state machine performs for the same call. */
module Storage {
  import opened Types
  import opened IsoTime
  import opened Pipeline
  import opened Machine
  import opened Safety

  lemma CountPrefix(execs: seq<Execution>, n: nat, key: string, since: int)
    requires n < |execs|
    ensures CountTrades(execs[..n + 1], key, since) ==
      CountTrades(execs[..n], key, since) + if Counted(execs[n], key, since) then 1 else 0
  {
    assert execs[..n + 1][..n] == execs[..n];
  }

  lemma RowsPrefix(signals: seq<SignalRow>, n: nat, status: Status)
    requires n < |signals|
    ensures RowsWith(signals[..n + 1], status) ==
      RowsWith(signals[..n], status) + if signals[n].status == status then [n] else []
  {
    assert signals[..n + 1][..n] == signals[..n];
  }

  /** The count as the SQL writes it, comparing the text of `started_at`. */
  function CountByText(execs: seq<Execution>, texts: seq<string>, key: string, since: string): nat
    requires |texts| == |execs|
  {
    if execs == [] then 0
    else
      var n := |execs| - 1;
      CountByText(execs[..n], texts[..n], key, since)
      + if execs[n].status in {Executed, ExecutedPartial, RecoveredExecuted}
           && execs[n].accountKey == Some(key) && !TextLess(texts[n], since) then 1 else 0
  }

  /** Counting by text is counting by instant, for any UTC datetimes and any day start. */
  lemma {:induction false} TextCountIsInstantCount(execs: seq<Execution>, times: seq<DateTime>, texts: seq<string>, key: string, since: DateTime)
    requires |times| == |texts| == |execs| && Valid(since)
    requires forall i | 0 <= i < |execs| :: Valid(times[i]) && execs[i].startedAt == Instant(times[i]) && texts[i] == IsoText(times[i])
    ensures CountByText(execs, texts, key, IsoText(since)) == CountTrades(execs, key, Instant(since))
    decreases |execs|
  {
    if execs != [] {
      var n := |execs| - 1;
      TextCountIsInstantCount(execs[..n], times[..n], texts[..n], key, since);
      TextOrderIsTimeOrder(times[n], since);
    }
  }

  /** After an update a row has the values named, and every other column is as it was. */
  predicate Assigned(x: Execution, y: Execution, f: Fields) {
    && y.signal == x.signal && y.attempt == x.attempt && y.startedAt == x.startedAt && y.dryRun == x.dryRun
    && y.action == x.action && y.stopLoss == x.stopLoss && y.takeProfit == x.takeProfit
    && y.symbol == (if f.SymbolField? then Some(f.symbol) else x.symbol)
    && y.accountKey == (if f.AccountField? then Some(f.key) else x.accountKey)
    && y.entryPrice == (if f.EntryField? then Some(f.price) else x.entryPrice)
    && y.volume == (if f.VolumeField? then Some(f.volume) else x.volume)
    && y.checkCode == (if f.CheckField? then f.code else x.checkCode)
    && y.sendCode == (if f.SendField? then f.code else x.sendCode)
    && if f.FinishFields? then y.status == f.status && y.finishedAt == Some(f.at) && y.receipt == f.receipt
       else y.status == x.status && y.finishedAt == x.finishedAt && y.receipt == x.receipt
  }

  class Database {
    var signals: seq<SignalRow>
    var executions: seq<Execution>
    var baselines: map<BaselineKey, real>

    /** The UNIQUE constraint on `signals.signal_id`. */
    ghost predicate Valid()
      reads this
    {
      UniqueIds(signals)
    }

    ghost function Contents(): Tables
      reads this
    {
      Tables(signals, executions, baselines)
    }

    constructor ()
      ensures Valid() && Contents() == Tables([], [], map[])
    {
      signals, executions, baselines := [], [], map[];
    }

    /** The row with an id, through the unique index. */
    method Find(id: string) returns (row: Option<nat>)
      ensures row.None? ==> !HasId(signals, id)
      ensures row.Some? ==> row.value < |signals| && signals[row.value].payload.id == id
    {
      var n := 0;
      while n < |signals|
        invariant n <= |signals|
        invariant forall i | 0 <= i < n :: signals[i].payload.id != id
      {
        if signals[n].payload.id == id {
          return Some(n);
        }
        n := n + 1;
      }
      row := None;
    }

    /** The row of the id afterwards, and whether this call created it. */
    method InsertSignalIfNew(payload: Payload) returns (row: nat, created: bool)
      requires Valid()
      modifies this`signals
      ensures Valid() && signals == InsertIfNew(old(signals), payload)
      ensures created <==> !HasId(old(signals), payload.id)
      ensures row < |signals| && signals[row].payload.id == payload.id
    {
      var found := Find(payload.id);
      match found
      case Some(i) =>
        assert HasId(signals, payload.id);
        row, created := i, false;
      case None =>
        row, created := |signals|, true;
        signals := signals + [SignalRow(payload, None, Pending, 0)];
    }

    /** SELECT the oldest pending row, then UPDATE it under the same guard. */
    method ClaimNextPending() returns (row: Option<nat>)
      requires Valid()
      modifies this`signals
      ensures Valid() && row == LeastPending(old(signals), 0)
      ensures Contents() == if row.None? then old(Contents()) else PerformOn(old(Contents()), ClaimRow(row.value))
    {
      var n := 0;
      while n < |signals| && signals[n].status != Pending
        invariant n <= |signals|
        invariant forall i | 0 <= i < n :: signals[i].status != Pending
      {
        n := n + 1;
      }
      if n == |signals| {
        return None;
      }
      row := Some(n);
      var guarded := Find(signals[n].payload.id);
      assert guarded == Some(n);
      signals := signals[n := signals[n].(status := Processing, attempts := signals[n].attempts + 1)];
    }

    method UpdateSignalStatus(id: string, status: Status)
      requires Valid()
      modifies this`signals
      ensures Valid() && |signals| == |old(signals)|
      ensures forall i | 0 <= i < |signals| ::
        signals[i] == if old(signals)[i].payload.id == id then old(signals)[i].(status := status) else old(signals)[i]
    {
      var found := Find(id);
      if found.Some? {
        signals := signals[found.value := signals[found.value].(status := status)];
      } else {
        assert forall i | 0 <= i < |signals| :: signals[i].payload.id == id ==> HasId(signals, id);
      }
    }

    method SetSymbolNormalized(id: string, symbol: string)
      requires Valid()
      modifies this`signals
      ensures Valid() && |signals| == |old(signals)|
      ensures forall i | 0 <= i < |signals| ::
        signals[i] == if old(signals)[i].payload.id == id then old(signals)[i].(normalized := Some(symbol)) else old(signals)[i]
    {
      var found := Find(id);
      if found.Some? {
        signals := signals[found.value := signals[found.value].(normalized := Some(symbol))];
      } else {
        assert forall i | 0 <= i < |signals| :: signals[i].payload.id == id ==> HasId(signals, id);
      }
    }

    method FindStuckProcessing() returns (rows: seq<nat>)
      ensures rows == RowsWith(signals, Processing)
    {
      rows := [];
      var n := 0;
      while n < |signals|
        invariant n <= |signals| && rows == RowsWith(signals[..n], Processing)
      {
        RowsPrefix(signals, n, Processing);
        if signals[n].status == Processing {
          rows := rows + [n];
        }
        n := n + 1;
      }
      assert signals[..n] == signals;
    }

    method InsertExecution(record: Execution) returns (exec: nat)
      modifies this`executions
      ensures exec == |old(executions)| && Contents() == PerformOn(old(Contents()), InsertExec(record))
    {
      exec := |executions|;
      executions := executions + [record];
    }

    method UpdateExecution(exec: nat, fields: Fields)
      modifies this`executions
      ensures Contents() == PerformOn(old(Contents()), UpdateExec(exec, fields))
      ensures exec < |old(executions)| ==> executions == old(executions)[exec := executions[exec]]
      ensures exec < |old(executions)| ==> Assigned(old(executions)[exec], executions[exec], fields)
    {
      if exec < |executions| {
        executions := executions[exec := Patch(executions[exec], fields)];
      }
    }

    method CountExecutedTradesSince(key: string, since: int) returns (count: nat)
      ensures count == CountTrades(executions, key, since)
    {
      count := 0;
      var n := 0;
      while n < |executions|
        invariant n <= |executions| && count == CountTrades(executions[..n], key, since)
      {
        CountPrefix(executions, n, key, since);
        if Counted(executions[n], key, since) {
          count := count + 1;
        }
        n := n + 1;
      }
      assert executions[..n] == executions;
    }

    method GetDailyLossBaseline(key: BaselineKey) returns (equity: Option<real>)
      ensures equity == if key in baselines then Some(baselines[key]) else None
    {
      equity := if key in baselines then Some(baselines[key]) else None;
    }

    /** ON CONFLICT DO NOTHING: the first baseline of a day stays. */
    method SetDailyLossBaseline(key: BaselineKey, equity: real)
      modifies this`baselines
      ensures Contents() == PerformOn(old(Contents()), StoreBaseline(key, equity))
    {
      if key !in baselines {
        baselines := baselines[key := equity];
      }
    }
  }

  /** Under the unique constraint an update by id is the update of one row. */
  lemma ByIdIsByRow(before: seq<SignalRow>, after: seq<SignalRow>, row: nat, r: SignalRow)
    requires UniqueIds(before) && row < |before| && |after| == |before| && after[row] == r
    requires forall i | 0 <= i < |before| && before[i].payload.id != before[row].payload.id :: after[i] == before[i]
    ensures after == before[row := r]
  {
    forall i | 0 <= i < |before| && i != row
      ensures after[i] == before[i]
    {
      assert before[i].payload.id != before[row].payload.id;
    }
  }
}
