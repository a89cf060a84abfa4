/** The single worker: recovery at startup, then a loop that claims and processes. */
module Worker {
  import opened Types
  import opened Pipeline
  import opened Machine
  import opened Safety
  import opened Guarantees
  import opened Progress
  import opened Stages
  import opened Dialogue
  import opened Storage
  import opened Gateway
  import opened Service

  function Less(a: nat, b: nat): nat {
    if a > b then a - b else 0
  }

  predicate SettledByRecovery(before: SignalRow, after: SignalRow) {
    after == before.(status := after.status) && (after.status == RecoveredExecuted || after.status == ReviewRequired)
  }

  /** Every stuck row is settled by recovery, every other row is as it was. */
  ghost predicate Recovered(before: seq<SignalRow>, after: seq<SignalRow>) {
    && |after| == |before|
    && forall i | 0 <= i < |before| ::
         if before[i].status == Processing
         then SettledByRecovery(before[i], after[i])
         else after[i] == before[i]
  }

  /** Recovery has gone through the first `n` of the stuck rows. */
  ghost predicate RecoveredTo(before: seq<SignalRow>, after: seq<SignalRow>, rows: seq<nat>, n: nat)
    requires n <= |rows|
  {
    && |after| == |before|
    && forall i | 0 <= i < |before| ::
         if i in rows[..n]
         then SettledByRecovery(before[i], after[i])
         else after[i] == before[i]
  }

  lemma RowsExist(signals: seq<SignalRow>, status: Status)
    ensures forall i | i in RowsWith(signals, status) :: i < |signals|
  {
  }

  lemma NoneRecovered(before: seq<SignalRow>, rows: seq<nat>)
    ensures RecoveredTo(before, before, rows, 0)
  {
  }

  /** Settling the next stuck row. */
  lemma RecoverNext(before: seq<SignalRow>, mid: seq<SignalRow>, rows: seq<nat>, n: nat, status: Status)
    requires n < |rows| && RecoveredTo(before, mid, rows, n) && rows[n] < |before| && rows[n] !in rows[..n]
    requires status == RecoveredExecuted || status == ReviewRequired
    ensures RecoveredTo(before, mid[rows[n] := mid[rows[n]].(status := status)], rows, n + 1)
  {
    assert rows[..n + 1] == rows[..n] + [rows[n]];
    assert mid[rows[n]] == before[rows[n]];
  }

  lemma AllRecovered(before: seq<SignalRow>, after: seq<SignalRow>, rows: seq<nat>)
    requires rows == RowsWith(before, Processing) && RecoveredTo(before, after, rows, |rows|)
    ensures Recovered(before, after) && RowsWith(after, Processing) == []
  {
    assert rows[..|rows|] == rows;
    assert Recovered(before, after);
    TallyZero(after, Processing);
  }

  class ExecutionWorker {
    const db: Database
    const service: ExecutionService
    var running: bool

    constructor (db: Database, service: ExecutionService)
      requires service.db == db
      ensures this.db == db && this.service == service && !running
    {
      this.db, this.service, running := db, service, false;
    }

    ghost predicate Standing(phase: Phase)
      reads this, service, service.db, service.gateway.mt5, service.tape
    {
      db == service.db && service.Valid() && service.world.workers == [phase]
    }

    /** No row is left in progress, each one that was is settled by the broker's history,
        and neither the other tables nor the broker's log change. */
    method RecoverOnStartup()
      requires Standing(Down)
      modifies service, service.tape, db`signals, service.gateway`connected
      ensures Standing(Idle) && old(service.history) < service.history
      ensures Recovered(old(db.signals), db.signals) && RowsWith(db.signals, Processing) == []
    {
      hide Run, Initial, UniqueIds, Requests, RowsWith, RecoveredTo, Recovered, Transcribed, Reconciliation;
      ghost var before := db.signals;
      var rows := db.FindStuckProcessing();
      assert forall i | 0 <= i < |rows| :: rows[i] < |before| by {
        assert forall i | 0 <= i < |rows| :: rows[i] in rows;
        RowsExist(before, Processing);
      }
      assert RecoveredTo(before, db.signals, rows, 0) by {
        NoneRecovered(before, rows);
      }
      service.BeginRecovery();
      assert rows == rows[0..];
      var n := 0;
      while n < |rows|
        invariant n <= |rows| && Standing(Recovering(rows[n..])) && RecoveredTo(before, db.signals, rows, n)
        invariant old(service.history) < service.history && |db.signals| == |before|
      {
        assert rows[n] in rows && rows[n..] == [rows[n]] + rows[n + 1..];
        ghost var mid := db.signals;
        var status, _ := service.ReconcileStuckSignal(rows[n], db.signals[rows[n]].payload.id, rows[n + 1..]);
        RecoverNext(before, mid, rows, n, status);
        n := n + 1;
      }
      assert rows[n..] == [];
      AllRecovered(before, db.signals, rows);
      service.EndRecovery();
    }

    method Start()
      requires Standing(Down)
      modifies this`running, service, service.tape, db`signals, service.gateway`connected
      ensures Standing(Idle) && running && old(service.history) < service.history
      ensures Recovered(old(db.signals), db.signals) && RowsWith(db.signals, Processing) == []
    {
      RecoverOnStartup();
      running := true;
    }

    method Stop()
      modifies this`running
      ensures !running
    {
      running := false;
    }

    /** One round of the loop: claim, and process what was claimed.  An attempt that raises
        leaves its row in progress and the worker alive. */
    method Round() returns (claimed: Option<nat>)
      requires Standing(Idle)
      modifies service, service.tape, db, service.gateway, service.gateway.mt5
      ensures Standing(Idle) && old(service.history) <= service.history
      ensures claimed == LeastPending(old(db.signals), 0) && |db.signals| == |old(db.signals)|
      ensures forall i | 0 <= i < |db.signals| && claimed != Some(i) :: db.signals[i] == old(db.signals)[i]
      ensures claimed.Some? ==> db.signals[claimed.value].status != Pending
      ensures claimed.Some? ==> db.signals[claimed.value].attempts == old(db.signals)[claimed.value].attempts + 1
    {
      hide Run, Apply, Initial, Decide, Explained, JobHeard, Transcribed, UniqueIds, Requests, OrderRequest;
      claimed := db.ClaimNextPending();
      service.NoteClaim(claimed);
      if claimed.Some? {
        var end, last, g := service.ProcessSignal(claimed.value, db.signals[claimed.value]);
      }
    }

    /** As long as it runs, each round takes one waiting row off the queue, whatever becomes of
        the attempt, and rows that were not waiting are left alone. */
    method RunLoop(rounds: nat)
      requires Standing(Idle)
      modifies service, service.tape, db, service.gateway, service.gateway.mt5
      ensures Standing(Idle) && old(service.history) <= service.history && |db.signals| == |old(db.signals)|
      ensures running ==> Tally(db.signals, Pending) == Less(Tally(old(db.signals), Pending), rounds)
      ensures forall i | 0 <= i < |db.signals| && old(db.signals)[i].status != Pending :: db.signals[i] == old(db.signals)[i]
    {
      ghost var waiting := Tally(db.signals, Pending);
      var n := 0;
      while running && n < rounds
        invariant n <= rounds && Standing(Idle) && old(service.history) <= service.history
        invariant |db.signals| == |old(db.signals)|
        invariant Tally(db.signals, Pending) == Less(waiting, n)
        invariant forall i | 0 <= i < |db.signals| && old(db.signals)[i].status != Pending :: db.signals[i] == old(db.signals)[i]
      {
        ghost var before := db.signals;
        var claimed := Round();
        RoundTally(before, db.signals, claimed);
        n := n + 1;
      }
    }
  }

  lemma RoundTally(before: seq<SignalRow>, after: seq<SignalRow>, claimed: Option<nat>)
    requires claimed == LeastPending(before, 0) && |after| == |before|
    requires forall i | 0 <= i < |after| && claimed != Some(i) :: after[i] == before[i]
    requires claimed.Some? ==> after[claimed.value].status != Pending
    ensures Tally(after, Pending) == Less(Tally(before, Pending), 1)
  {
    hide RowsWith;
    TallyZero(before, Pending);
    if claimed.Some? {
      TallyUpdate(before, claimed.value, after[claimed.value], Pending);
      assert after == before[claimed.value := after[claimed.value]];
    } else {
      assert after == before;
    }
  }

  /** An attempt during which the process dies after so many of its stages, right after the
      order went out or between the two final updates among them. */
  method DieDuring(service: ExecutionService, row: nat, signal: SignalRow, stages: nat)
    requires service.Claimed(row, signal)
    modifies service, service.tape, service.db, service.gateway, service.gateway.mt5
    ensures service.Valid() && service.world.workers == [Down]
  {
    hide Run, Apply, Initial, Decide, Transcribed, OrderRequest, JobHeard, UniqueIds, Requests, Focused;
    var j, g := service.OpenExecution(row, signal);
    if stages > 0 {
      j := service.CheckIntake(j, g);
      if stages > 1 && j.outcome.Undecided? {
        service.StoreMapped(j, g);
        if stages > 2 {
          j := service.IdentifyAccount(j, g);
          if stages > 3 && j.outcome.Undecided? {
            DieTrading(service, j, stages - 4, g);
            return;
          }
        }
      }
    }
    if j.outcome.Stopped? && stages > 4 {
      service.CloseExecution(j.exec, j.outcome.status, NO_RECEIPT, j, g);
    }
    service.Crash(service.tape.log);
  }

  method DieTrading(service: ExecutionService, k: Job, stages: nat, ghost g: Origin)
    requires service.Ready(Quote, k, g) && service.gateway.available
    modifies service, service.tape, service.db, service.gateway, service.gateway.mt5
    ensures service.Valid() && service.world.workers == [Down]
  {
    hide Run, Apply, Initial, Decide, Transcribed, OrderRequest, JobHeard, UniqueIds, Requests, Focused;
    var j := service.QuoteSymbol(k, g);
    if stages > 0 && j.outcome.Undecided? {
      j := service.CheckMarket(j, g);
      if stages > 1 && j.outcome.Undecided? {
        j := service.CheckTradeCount(j, g);
        if stages > 2 && j.outcome.Undecided? {
          j := service.CheckPositions(j, g);
          if stages > 3 && j.outcome.Undecided? {
            j := service.LoadBaseline(j, g);
            if stages > 4 {
              DieSending(service, j, stages - 5, g);
              return;
            }
          }
        }
      }
    }
    service.Crash(service.tape.log);
  }

  method DieSending(service: ExecutionService, k: Job, stages: nat, ghost g: Origin)
    requires service.Ready(Size, k, g) && service.gateway.available
    modifies service, service.tape, service.db, service.gateway, service.gateway.mt5
    ensures service.Valid() && service.world.workers == [Down]
  {
    hide Run, Apply, Initial, Decide, Transcribed, OrderRequest, JobHeard, UniqueIds, Requests, Focused;
    var j, raised := service.SizePosition(k, g);
    if stages > 0 && !raised && j.outcome.Undecided? {
      var checked, request, _ := service.CheckOrder(j, g);
      j := service.CheckLive(checked, g);
      if stages > 1 && j.outcome.Undecided? {
        DieSent(service, j, request, stages - 2, g);
        return;
      }
    }
    service.Crash(service.tape.log);
  }

  method DieSent(service: ExecutionService, j: Job, request: Request, stages: nat, ghost g: Origin)
    requires service.Ready(Send, j, g) && service.Cleared(j) && service.gateway.available
    requires request == OrderRequest(service.cfg, j.payload, j.seen)
    modifies service, service.tape, service.db, service.gateway.mt5
    ensures service.Valid() && service.world.workers == [Down]
  {
    hide Run, Apply, Initial, Decide, Transcribed, OrderRequest, JobHeard, UniqueIds, Requests, Focused;
    var result, last := service.Transmit(j, request, g);
    if stages > 0 {
      service.RecordResult(j.exec, result, last, g);
      if stages > 1 {
        service.CloseExecution(j.exec, SendStatus(result), SendReceipt(result), last, g);
      }
    }
    service.Crash(service.tape.log);
  }

  /** One life of the process: recover, take submissions, work, and either stop in an orderly
      way or die in the middle of one more attempt. */
  method Lifetime(worker: ExecutionWorker, submissions: seq<Payload>, rounds: nat, death: Option<nat>)
    requires worker.Standing(Down)
    modifies worker`running, worker.service, worker.service.tape
    modifies worker.db, worker.service.gateway, worker.service.gateway.mt5
    ensures worker.Standing(Down)
  {
    hide Run, Initial, UniqueIds, Requests, Transcribed, Recovered, RowsWith, InsertIfNew, Tally;
    worker.Start();
    var k := 0;
    while k < |submissions|
      invariant worker.Standing(Idle)
    {
      var _ := worker.service.Submit(submissions[k]);
      k := k + 1;
    }
    worker.RunLoop(rounds);
    worker.Stop();
    if death.Some? {
      DieAtWork(worker, death.value);
    } else {
      ghost var before := worker.service.tape.log;
      worker.service.gateway.Shutdown();
      worker.service.Crash(before);
    }
  }

  method DieAtWork(worker: ExecutionWorker, stages: nat)
    requires worker.Standing(Idle)
    modifies worker.service, worker.service.tape, worker.db, worker.service.gateway, worker.service.gateway.mt5
    ensures worker.Standing(Down)
  {
    hide Run, Apply, Initial, UniqueIds, Requests, Transcribed;
    var claimed := worker.db.ClaimNextPending();
    worker.service.NoteClaim(claimed);
    if claimed.Some? {
      DieDuring(worker.service, claimed.value, worker.db.signals[claimed.value], stages);
    } else {
      worker.service.Crash(worker.service.tape.log);
    }
  }

  /** Several lives over one database and one broker.  Whatever the terminal answered and
      wherever the process died, the broker never got two orders for one signal. */
  method Lifetimes(
    cfg: Settings, available: bool, ghost open: nat, submissions: seq<seq<Payload>>, rounds: nat, deaths: seq<Option<nat>>)
    returns (service: ExecutionService)
    requires |deaths| == |submissions|
    ensures fresh(service) && service.Valid() && service.cfg == cfg
    ensures OncePerSignal(service.world.orders) && |service.world.orders| == |service.gateway.mt5.sent|
  {
    hide Run, Apply, UniqueIds, Requests;
    var db := new Database();
    var tape := new Tape();
    var clock := new HostClock(tape);
    var mt5 := new Terminal(tape);
    var gateway := new MT5Gateway(available, mt5);
    service := new ExecutionService(cfg, db, gateway, clock, open);
    var worker := new ExecutionWorker(db, service);
    var n := 0;
    while n < |submissions|
      invariant worker.Standing(Down)
    {
      Lifetime(worker, submissions[n], rounds, deaths[n]);
      n := n + 1;
    }
    SentAtMostOnce(service);
  }
}
