/** The bridge as a state machine: durable tables, any number of workers, the broker, and
    events that interleave freely.  Every event is one locked database method, one order, or
    something the environment does. */
module Machine {
  import opened Types
  import opened Pipeline

  /** A history query answered during recovery. */
  datatype Lookup = Lookup(row: nat, deals: seq<string>)

  /** `submits`, `claims`, `orders`, `lookups` and `checks` are logs; nothing the bridge decides reads them. */
  datatype World = World(
    t: Tables,
    workers: seq<Phase>,
    orders: seq<Order>,
    open: nat,
    submits: seq<Payload>,
    claims: seq<nat>,
    lookups: seq<Lookup>,
    checks: seq<Inquiry>)

  datatype Event =
    | Submit(payload: Payload)
    | PositionClosed
    | Start(k: nat)
    | Reconcile(k: nat, reachable: bool, deals: seq<string>)
    | Select(k: nat)
    | Claim(k: nat)
    | Advance(k: nat, answer: Answer)
    | Raise(k: nat)
    | Kill(k: nat)

  predicate HasId(signals: seq<SignalRow>, id: string) {
    exists i | 0 <= i < |signals| :: signals[i].payload.id == id
  }

  /** INSERT OR IGNORE on the unique signal id. */
  function InsertIfNew(signals: seq<SignalRow>, p: Payload): seq<SignalRow> {
    if HasId(signals, p.id) then signals else signals + [SignalRow(p, None, Pending, 0)]
  }

  /** The positions of the rows with a status, in id order. */
  function RowsWith(signals: seq<SignalRow>, status: Status): (rows: seq<nat>)
    ensures forall i :: i in rows <==> 0 <= i < |signals| && signals[i].status == status
    ensures forall i, j | 0 <= i < j < |rows| :: rows[i] < rows[j]
  {
    if signals == [] then []
    else
      var n := |signals| - 1;
      var before := RowsWith(signals[..n], status);
      assert forall i | 0 <= i < |before| :: before[i] in before;
      before + if signals[n].status == status then [n] else []
  }

  /** SELECT ... WHERE status = 'PENDING' ORDER BY id LIMIT 1, from position `from` on. */
  function LeastPending(signals: seq<SignalRow>, from: nat): (r: Option<nat>)
    requires from <= |signals|
    ensures r.None? ==> forall i | from <= i < |signals| :: signals[i].status != Pending
    ensures r.Some? ==> from <= r.value < |signals| && signals[r.value].status == Pending
    ensures r.Some? ==> forall i | from <= i < r.value :: signals[i].status != Pending
    decreases |signals| - from
  {
    if from == |signals| then None
    else if signals[from].status == Pending then Some(from)
    else LeastPending(signals, from + 1)
  }

  function RecoveryStatus(cfg: Settings, id: string, reachable: bool, deals: seq<string>): Status {
    if reachable && cfg.tag(id) in deals then RecoveredExecuted else ReviewRequired
  }

  /** What worker `k` does; the identity move when the event does not apply to its phase. */
  function Choose(cfg: Settings, w: World, e: Event): Move
    requires !e.Submit? && !e.PositionClosed? && e.k < |w.workers|
  {
    var phase := w.workers[e.k];
    match e
    case Start(_) =>
      if phase.Down? then Move(NoEffect, Recovering(RowsWith(w.t.signals, Processing))) else Move(NoEffect, phase)
    case Reconcile(_, reachable, deals) =>
      if !phase.Recovering? then Move(NoEffect, phase)
      else if phase.queue == [] then Move(NoEffect, Idle)
      else
        var row := phase.queue[0];
        if row >= |w.t.signals| then Move(NoEffect, phase)
        else Move(Reconciled(row, RecoveryStatus(cfg, w.t.signals[row].payload.id, reachable, deals),
                             if reachable then Some(deals) else None),
                  Recovering(phase.queue[1..]))
    case Select(_) =>
      if !phase.Idle? then Move(NoEffect, phase)
      else
        (match LeastPending(w.t.signals, 0)
         case None => Move(NoEffect, Idle)
         case Some(i) => Move(NoEffect, Selected(i)))
    case Claim(_) =>
      if !phase.Selected? then Move(NoEffect, phase)
      else if phase.row < |w.t.signals| && w.t.signals[phase.row].status == Pending
      then Move(ClaimRow(phase.row), Running(Insert, Job(phase.row, w.t.signals[phase.row].payload, 0, NOTHING, Undecided)))
      else Move(NoEffect, Idle)
    case Advance(_, a) =>
      if phase.Running? && phase.job.row < |w.t.signals| then Decide(cfg, w.t, phase.step, phase.job, a) else Move(NoEffect, phase)
    case Raise(_) => Move(NoEffect, if phase.Down? || phase.Recovering? then Down else Idle)
    case Kill(_) => Move(NoEffect, Down)
  }

  function SetRow(t: Tables, i: nat, status: Status): Tables {
    if i < |t.signals| then t.(signals := t.signals[i := t.signals[i].(status := status)]) else t
  }

  function PerformOn(t: Tables, f: Effect): Tables {
    match f
    case NoEffect => t
    case InsertExec(x) => t.(execs := t.execs + [x])
    case UpdateExec(e, fields) =>
      if e < |t.execs| then t.(execs := t.execs[e := Patch(t.execs[e], fields)]) else t
    case StoreSymbol(i, s) =>
      if i < |t.signals| then t.(signals := t.signals[i := t.signals[i].(normalized := Some(s))]) else t
    case StoreBaseline(key, equity) =>
      if key in t.baselines then t else t.(baselines := t.baselines[key := equity])
    case AskCheck(_) => t
    case SendOrder(_) => t
    case SetStatus(i, status) => SetRow(t, i, status)
    case ClaimRow(i) =>
      if i < |t.signals|
      then t.(signals := t.signals[i := t.signals[i].(status := Processing, attempts := t.signals[i].attempts + 1)])
      else t
    case Reconciled(i, status, _) => SetRow(t, i, status)
  }

  function Perform(w: World, k: nat, m: Move): World
    requires k < |w.workers|
  {
    var f := m.effect;
    w.(t := PerformOn(w.t, f),
       workers := w.workers[k := m.phase],
       orders := if f.SendOrder? then w.orders + [f.order] else w.orders,
       open := if f.SendOrder? && f.order.opens then w.open + 1 else w.open,
       claims := if f.ClaimRow? then w.claims + [f.row] else w.claims,
       lookups := if f.Reconciled? && f.deals.Some? then w.lookups + [Lookup(f.row, f.deals.value)] else w.lookups,
       checks := if f.AskCheck? then w.checks + [f.inquiry] else w.checks)
  }

  function Apply(cfg: Settings, w: World, e: Event): World {
    match e
    case Submit(p) => w.(t := w.t.(signals := InsertIfNew(w.t.signals, p)), submits := w.submits + [p])
    case PositionClosed => if w.open > 0 then w.(open := w.open - 1) else w
    case _ => if e.k < |w.workers| then Perform(w, e.k, Choose(cfg, w, e)) else w
  }

  /** An empty database, `n` workers not yet started. */
  function Initial(n: nat, open: nat): World {
    World(Tables([], [], map[]), seq(n, _ => Down), [], open, [], [], [], [])
  }

  function Run(cfg: Settings, w: World, events: seq<Event>): World {
    if events == [] then w
    else Apply(cfg, Run(cfg, w, events[..|events| - 1]), events[|events| - 1])
  }

  /** Some run of `n` workers on a database that starts empty leads here. */
  ghost predicate Reachable(cfg: Settings, n: nat, w: World) {
    exists open: nat, events: seq<Event> :: w == Run(cfg, Initial(n, open), events)
  }

  /** A run in which every event happens under its own settings: they are read anew at each
      start, and only the tag of a signal stays the same. */
  function RunUnder(w: World, steps: seq<(Settings, Event)>): World {
    if steps == [] then w
    else
      var last := steps[|steps| - 1];
      Apply(last.0, RunUnder(w, steps[..|steps| - 1]), last.1)
  }

  ghost predicate Tagged(tag: string -> string, steps: seq<(Settings, Event)>) {
    forall i | 0 <= i < |steps| :: steps[i].0.tag == tag
  }

  ghost predicate ReachableUnder(tag: string -> string, n: nat, w: World) {
    exists open: nat, steps: seq<(Settings, Event)> :: Tagged(tag, steps) && w == RunUnder(Initial(n, open), steps)
  }

  lemma {:induction false} SameSettings(cfg: Settings, w: World, events: seq<Event>)
    returns (steps: seq<(Settings, Event)>)
    ensures Tagged(cfg.tag, steps)
    ensures RunUnder(w, steps) == Run(cfg, w, events)
  {
    if events == [] {
      steps := [];
    } else {
      var last := |events| - 1;
      var before := SameSettings(cfg, w, events[..last]);
      steps := before + [(cfg, events[last])];
      assert steps[..|before|] == before;
    }
  }

  /** One setting for all starts is a special case. */
  lemma ReachableIsUnder(cfg: Settings, n: nat, w: World)
    requires Reachable(cfg, n, w)
    ensures ReachableUnder(cfg.tag, n, w)
  {
    hide Run, Initial;
    var open: nat, events: seq<Event> :| w == Run(cfg, Initial(n, open), events);
    var steps := SameSettings(cfg, Initial(n, open), events);
  }

  lemma ReachableStep(cfg: Settings, n: nat, w: World, e: Event)
    requires Reachable(cfg, n, w)
    ensures Reachable(cfg, n, Apply(cfg, w, e))
  {
    hide Apply, Initial;
    var open: nat, events: seq<Event> :| w == Run(cfg, Initial(n, open), events);
    assert (events + [e])[..|events|] == events;
    assert Run(cfg, Initial(n, open), events + [e]) == Apply(cfg, w, e);
  }
}
