/** Restart recovery: one pass settles every stuck row and touches nothing else, and a pass
    that is cut short anywhere and run again with the same broker answers ends in the same
    table. */
module Recovery {
  import opened Types
  import opened Pipeline
  import opened Machine
  import opened Safety

  /** What the broker answers for a signal id: nothing, or the comments of the deals found. */
  type History = string -> Option<seq<string>>

  function Answered(h: History, id: string): bool {
    h(id).Some?
  }

  function Deals(h: History, id: string): seq<string> {
    h(id).GetOr([])
  }

  function RecoverRow(cfg: Settings, h: History, r: SignalRow): SignalRow {
    if r.status != Processing then r
    else r.(status := RecoveryStatus(cfg, r.payload.id, Answered(h, r.payload.id), Deals(h, r.payload.id)))
  }

  /** The table a complete recovery leaves. */
  function RecoverAll(cfg: Settings, h: History, signals: seq<SignalRow>): (r: seq<SignalRow>)
    ensures |r| == |signals| && forall i | 0 <= i < |r| :: r[i] == RecoverRow(cfg, h, signals[i])
  {
    seq(|signals|, i requires 0 <= i < |signals| => RecoverRow(cfg, h, signals[i]))
  }

  /** What can happen while a worker recovers: it starts, asks, is interrupted or dies. */
  predicate RecoveryEvent(cfg: Settings, h: History, w: World, k: nat, e: Event) {
    match e
    case Start(l) => l == k
    case Raise(l) => l == k
    case Kill(l) => l == k
    case Reconcile(l, reachable, deals) =>
      l == k
      && (k < |w.workers| && w.workers[k].Recovering? && w.workers[k].queue != [] && w.workers[k].queue[0] < |w.t.signals| ==>
            var id := w.t.signals[w.workers[k].queue[0]].payload.id;
            reachable == Answered(h, id) && deals == Deals(h, id))
    case _ => false
  }

  ghost predicate RecoveryRun(cfg: Settings, h: History, w: World, k: nat, events: seq<Event>) {
    events == []
    || (var last := |events| - 1;
        RecoveryRun(cfg, h, w, k, events[..last]) && RecoveryEvent(cfg, h, Run(cfg, w, events[..last]), k, events[last]))
  }

  /** A recovering worker's queue is exactly the rows still stuck. */
  ghost predicate QueueExact(t: Tables, ph: Phase) {
    match ph
    case Down => true
    case Recovering(q) => q == RowsWith(t.signals, Processing)
    case Idle => RowsWith(t.signals, Processing) == []
    case _ => false
  }

  /** Everything but the statuses still to be decided is as it was. */
  ghost predicate OnlyRecovers(cfg: Settings, h: History, w: World, v: World, k: nat) {
    && |v.workers| == |w.workers| && k < |v.workers| && QueueExact(v.t, v.workers[k])
    && RecoverAll(cfg, h, v.t.signals) == RecoverAll(cfg, h, w.t.signals)
    && v.t.execs == w.t.execs && v.t.baselines == w.t.baselines
    && v.orders == w.orders && v.open == w.open && v.claims == w.claims && v.submits == w.submits
  }

  lemma {:induction false} AscendingUnique(a: seq<nat>, b: seq<nat>)
    requires forall i, j | 0 <= i < j < |a| :: a[i] < a[j]
    requires forall i, j | 0 <= i < j < |b| :: b[i] < b[j]
    requires forall x :: x in a <==> x in b
    ensures a == b
  {
    assert a != [] ==> a[0] in b;
    assert b != [] ==> b[0] in a;
    if a != [] && b != [] {
      assert a[0] == b[0];
      forall x
        ensures x in a[1..] <==> x in b[1..]
      {
        assert x in a[1..] <==> x in a && x != a[0];
        assert x in b[1..] <==> x in b && x != b[0];
      }
      AscendingUnique(a[1..], b[1..]);
    }
  }

  /** Settling the first stuck row takes it off the list of stuck rows. */
  lemma SettleFirst(signals: seq<SignalRow>, status: Status)
    requires RowsWith(signals, Processing) != [] && status != Processing
    ensures var rows := RowsWith(signals, Processing);
      rows[0] < |signals|
      && RowsWith(signals[rows[0] := signals[rows[0]].(status := status)], Processing) == rows[1..]
  {
    var rows := RowsWith(signals, Processing);
    assert rows[0] in rows;
    var after := signals[rows[0] := signals[rows[0]].(status := status)];
    forall x
      ensures x in RowsWith(after, Processing) <==> x in rows[1..]
    {
      assert x in rows[1..] <==> x in rows && x != rows[0];
    }
    AscendingUnique(RowsWith(after, Processing), rows[1..]);
  }

  lemma RecoverySettles(cfg: Settings, h: History, r: SignalRow)
    ensures RecoverRow(cfg, h, r).status != Processing
    ensures RecoverRow(cfg, h, RecoverRow(cfg, h, r)) == RecoverRow(cfg, h, r)
  {
  }

  /** Settling one row with the broker's answer does not change where recovery ends. */
  lemma SettleCommutes(cfg: Settings, h: History, signals: seq<SignalRow>, i: nat)
    requires i < |signals|
    ensures RecoverAll(cfg, h, signals[i := RecoverRow(cfg, h, signals[i])]) == RecoverAll(cfg, h, signals)
  {
    RecoverySettles(cfg, h, signals[i]);
  }

  /** Reconciling the head of the queue sets its status by the broker's answer. */
  lemma ReconcileMove(cfg: Settings, h: History, w: World, k: nat, e: Event)
    requires k < |w.workers| && w.workers[k].Recovering?
    requires w.workers[k].queue != [] && w.workers[k].queue[0] < |w.t.signals|
    requires e.Reconcile? && RecoveryEvent(cfg, h, w, k, e)
    ensures var q, v := w.workers[k].queue, Apply(cfg, w, e);
      var status := RecoveryStatus(cfg, w.t.signals[q[0]].payload.id, e.reachable, e.deals);
      && v == w.(t := v.t, workers := w.workers[k := Recovering(q[1..])], lookups := v.lookups)
      && v.t == w.t.(signals := w.t.signals[q[0] := w.t.signals[q[0]].(status := status)])
  {
  }

  /** The head of an exact queue is settled. */
  lemma HeadSettled(cfg: Settings, h: History, t: Tables, q: seq<nat>)
    requires q == RowsWith(t.signals, Processing) && q != []
    ensures q[0] < |t.signals|
    ensures var r := t.signals[q[0]];
      var after := t.signals[q[0] := RecoverRow(cfg, h, r)];
      && RecoverRow(cfg, h, r) ==
           r.(status := RecoveryStatus(cfg, r.payload.id, Answered(h, r.payload.id), Deals(h, r.payload.id)))
      && RowsWith(after, Processing) == q[1..]
      && RecoverAll(cfg, h, after) == RecoverAll(cfg, h, t.signals)
  {
    assert q[0] in q;
    RecoverySettles(cfg, h, t.signals[q[0]]);
    SettleFirst(t.signals, RecoverRow(cfg, h, t.signals[q[0]]).status);
    SettleCommutes(cfg, h, t.signals, q[0]);
  }

  lemma ReconcileStep(cfg: Settings, h: History, w: World, k: nat, e: Event)
    requires k < |w.workers| && QueueExact(w.t, w.workers[k]) && RecoveryEvent(cfg, h, w, k, e) && e.Reconcile?
    ensures OnlyRecovers(cfg, h, w, Apply(cfg, w, e), k)
  {
    hide Apply, RecoveryStatus, RecoverRow, RowsWith, RecoverAll;
    if w.workers[k].Recovering? && w.workers[k].queue != [] {
      HeadSettled(cfg, h, w.t, w.workers[k].queue);
      ReconcileMove(cfg, h, w, k, e);
    } else {
      IdleReconcile(cfg, w, k, e);
    }
  }

  lemma IdleReconcile(cfg: Settings, w: World, k: nat, e: Event)
    requires k < |w.workers| && e.Reconcile? && e.k == k && !(w.workers[k].Recovering? && w.workers[k].queue != [])
    ensures Apply(cfg, w, e) == w.(workers := w.workers[k := if w.workers[k].Recovering? then Idle else w.workers[k]])
  {
  }

  lemma InterruptStep(cfg: Settings, h: History, w: World, k: nat, e: Event)
    requires k < |w.workers| && QueueExact(w.t, w.workers[k]) && RecoveryEvent(cfg, h, w, k, e) && !e.Reconcile?
    ensures OnlyRecovers(cfg, h, w, Apply(cfg, w, e), k)
  {
  }

  lemma {:induction false} RunOnlyRecovers(cfg: Settings, h: History, w: World, k: nat, events: seq<Event>)
    requires k < |w.workers| && w.workers[k].Down? && RecoveryRun(cfg, h, w, k, events)
    ensures OnlyRecovers(cfg, h, w, Run(cfg, w, events), k)
  {
    if events != [] {
      var last := |events| - 1;
      RunOnlyRecovers(cfg, h, w, k, events[..last]);
      var v := Run(cfg, w, events[..last]);
      if events[last].Reconcile? {
        ReconcileStep(cfg, h, v, k, events[last]);
      } else {
        InterruptStep(cfg, h, v, k, events[last]);
      }
    }
  }

  /** A row that was not stuck is as it was; a stuck one is RECOVERED_EXECUTED exactly when the
      broker answered with its tag, and REVIEW_REQUIRED otherwise. */
  predicate RowSettled(cfg: Settings, h: History, before: SignalRow, after: SignalRow) {
    if before.status != Processing then after == before
    else
      after == before.(status := after.status)
      && if h(before.payload.id) != None && cfg.tag(before.payload.id) in h(before.payload.id).value
         then after.status == RecoveredExecuted
         else after.status == ReviewRequired
  }

  lemma NothingStuck(cfg: Settings, h: History, signals: seq<SignalRow>)
    requires RowsWith(signals, Processing) == []
    ensures RecoverAll(cfg, h, signals) == signals
  {
    forall i | 0 <= i < |signals|
      ensures RecoverRow(cfg, h, signals[i]) == signals[i]
    {
      assert i !in RowsWith(signals, Processing);
    }
  }

  /** However often recovery is cut short, killed and started again, once it has come to an
      end the tables are those of one uninterrupted pass, no row is stuck, the rows that were
      stuck are RECOVERED_EXECUTED or REVIEW_REQUIRED by the broker's answer, and nothing
      was sent, claimed or counted. */
  lemma RecoveryIsTotalAndIdempotent(cfg: Settings, h: History, w: World, k: nat, events: seq<Event>)
    requires k < |w.workers| && w.workers[k].Down? && RecoveryRun(cfg, h, w, k, events)
    ensures var v := Run(cfg, w, events);
      |v.workers| == |w.workers| && (v.workers[k].Idle? ==>
        && v.t == w.t.(signals := RecoverAll(cfg, h, w.t.signals))
        && v.orders == w.orders && v.open == w.open && v.claims == w.claims
        && forall i | 0 <= i < |v.t.signals| :: RowSettled(cfg, h, w.t.signals[i], v.t.signals[i]))
  {
    RunOnlyRecovers(cfg, h, w, k, events);
    var v := Run(cfg, w, events);
    if v.workers[k].Idle? {
      NothingStuck(cfg, h, v.t.signals);
    }
  }
}
