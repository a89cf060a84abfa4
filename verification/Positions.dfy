/** The open-position cap over whole runs.  Positions of the bridge open only
    through its orders and may close at any time. */
module Positions {
  import opened Types
  import opened Pipeline
  import opened Machine

  /** Between the position gate and the send. */
  predicate Cleared(s: Step) {
    s.ReadBaseline? || s.WriteBaseline? || s.Size? || s.Check? || s.RecordCheck? || s.Send?
  }

  predicate BehindGate(ph: Phase) {
    ph.Running? && Cleared(ph.step)
  }

  /** How many workers are between the gate and the send. */
  function CountBehindGate(workers: seq<Phase>): (n: nat)
    ensures n <= |workers|
  {
    if workers == [] then 0
    else
      var last := |workers| - 1;
      CountBehindGate(workers[..last]) + if BehindGate(workers[last]) then 1 else 0
  }

  lemma {:induction false} BehindGateUpdate(workers: seq<Phase>, k: nat, ph: Phase)
    requires k < |workers|
    ensures CountBehindGate(workers[k := ph]) ==
      CountBehindGate(workers) - (if BehindGate(workers[k]) then 1 else 0) + if BehindGate(ph) then 1 else 0
    decreases |workers|
  {
    var last := |workers| - 1;
    if k < last {
      BehindGateUpdate(workers[..last], k, ph);
      assert workers[k := ph][..last] == workers[..last][k := ph];
    } else {
      assert workers[k := ph][..last] == workers[..last];
    }
  }

  /** The orders that opened a position. */
  function Opened(orders: seq<Order>): nat {
    if orders == [] then 0
    else
      var last := |orders| - 1;
      Opened(orders[..last]) + if orders[last].opens then 1 else 0
  }

  /** The positions that were closed during a run. */
  function Closings(cfg: Settings, w: World, events: seq<Event>): nat {
    if events == [] then 0
    else
      var last := |events| - 1;
      Closings(cfg, w, events[..last]) + if events[last].PositionClosed? && Run(cfg, w, events[..last]).open > 0 then 1 else 0
  }

  lemma EventMovesOpen(cfg: Settings, w: World, e: Event)
    ensures var v := Apply(cfg, w, e);
      v.open + (if e.PositionClosed? && w.open > 0 then 1 else 0) + Opened(w.orders) == w.open + Opened(v.orders)
  {
    hide Decide;
    if !e.Submit? && !e.PositionClosed? && e.k < |w.workers| && Choose(cfg, w, e).effect.SendOrder? {
      var o := Choose(cfg, w, e).effect.order;
      assert (w.orders + [o])[..|w.orders|] == w.orders;
    }
  }

  /** Open positions are those at the start and those that orders opened, less those closed. */
  lemma {:induction false} OpenIsConserved(cfg: Settings, n: nat, open: nat, events: seq<Event>)
    ensures var w := Run(cfg, Initial(n, open), events);
      w.open + Closings(cfg, Initial(n, open), events) == open + Opened(w.orders)
  {
    hide Apply;
    if events != [] {
      var last := |events| - 1;
      OpenIsConserved(cfg, n, open, events[..last]);
      EventMovesOpen(cfg, Run(cfg, Initial(n, open), events[..last]), events[last]);
    }
  }

  ghost predicate Bounded(cfg: Settings, w: World) {
    w.open + CountBehindGate(w.workers) <= cfg.maxOpenPositions - 1 + |w.workers|
  }

  /** A position query that is answered at all shows every open position of the bridge. */
  predicate ShowsAll(cfg: Settings, w: World, e: Event) {
    e.Advance? && e.k < |w.workers| && w.workers[e.k].Running? && w.workers[e.k].step.CountPositions?
    && e.answer.seen.positions.Some?
    ==> multiset(e.answer.seen.positions.value)[cfg.magic] >= w.open
  }

  ghost predicate Truthful(cfg: Settings, w: World, events: seq<Event>) {
    events == []
    || (var last := |events| - 1;
        Truthful(cfg, w, events[..last]) && ShowsAll(cfg, Run(cfg, w, events[..last]), events[last]))
  }

  lemma PassedPositions(cfg: Settings, job: Job)
    requires FirstIn(Failing(cfg, job.payload, job.seen), 12, 14).None?
    ensures job.seen.positions.Some? && multiset(job.seen.positions.value)[cfg.magic] < cfg.maxOpenPositions
  {
    var fails := Failing(cfg, job.payload, job.seen);
    assert PositionsKnown !in fails && PositionsLeft !in fails;
  }

  /** A worker passes the gate only while the positions are below the cap, and a send takes
      it out of the region behind the gate. */
  lemma DecideBounded(cfg: Settings, t: Tables, s: Step, j: Job, a: Answer, open: nat)
    requires j.row < |t.signals|
    requires s.CountPositions? && a.seen.positions.Some? ==> multiset(a.seen.positions.value)[cfg.magic] >= open
    ensures var m := Decide(cfg, t, s, j, a);
      && (BehindGate(m.phase) ==> Cleared(s) || open < cfg.maxOpenPositions)
      && (m.effect.SendOrder? ==> Cleared(s) && !BehindGate(m.phase))
  {
    if s.CountPositions? {
      var counted := j.(seen := j.seen.(positions := a.seen.positions));
      if FirstIn(Failing(cfg, j.payload, counted.seen), 12, 14).None? {
        PassedPositions(cfg, counted);
      }
    }
  }

  lemma MoveKeepsBounded(cfg: Settings, w: World, k: nat, m: Move)
    requires Bounded(cfg, w) && k < |w.workers|
    requires BehindGate(m.phase) ==> BehindGate(w.workers[k]) || w.open < cfg.maxOpenPositions
    requires m.effect.SendOrder? ==> BehindGate(w.workers[k]) && !BehindGate(m.phase)
    ensures Bounded(cfg, Perform(w, k, m))
  {
    BehindGateUpdate(w.workers, k, m.phase);
    assert CountBehindGate(w.workers[k := m.phase]) <= |w.workers|;
  }

  lemma EventKeepsBounded(cfg: Settings, w: World, e: Event)
    requires Bounded(cfg, w) && ShowsAll(cfg, w, e)
    ensures Bounded(cfg, Apply(cfg, w, e))
  {
    if !e.Submit? && !e.PositionClosed? && e.k < |w.workers| {
      if e.Advance? && w.workers[e.k].Running? && w.workers[e.k].job.row < |w.t.signals| {
        DecideBounded(cfg, w.t, w.workers[e.k].step, w.workers[e.k].job, e.answer, w.open);
      }
      MoveKeepsBounded(cfg, w, e.k, Choose(cfg, w, e));
    }
  }

  lemma {:induction false} RunIsBounded(cfg: Settings, n: nat, open: nat, events: seq<Event>)
    requires n >= 1 && open <= cfg.maxOpenPositions && Truthful(cfg, Initial(n, open), events)
    ensures Bounded(cfg, Run(cfg, Initial(n, open), events)) && |Run(cfg, Initial(n, open), events).workers| == n
  {
    if events == [] {
      NoneBehindGate(n);
    } else {
      var last := |events| - 1;
      RunIsBounded(cfg, n, open, events[..last]);
      EventKeepsBounded(cfg, Run(cfg, Initial(n, open), events[..last]), events[last]);
    }
  }

  lemma {:induction false} NoneBehindGate(n: nat)
    ensures CountBehindGate(seq(n, _ => Down)) == 0
  {
    if n > 0 {
      NoneBehindGate(n - 1);
      assert seq(n, _ => Down)[..n - 1] == seq(n - 1, _ => Down);
    }
  }

  /** At every point of a run with `n` workers the bridge has at most `n - 1` positions more
      than the cap open; with the one worker it is deployed with, never more than the cap. */
  lemma OpenPositionsCapped(cfg: Settings, n: nat, open: nat, events: seq<Event>, upTo: nat)
    requires n >= 1 && open <= cfg.maxOpenPositions && Truthful(cfg, Initial(n, open), events) && upTo <= |events|
    ensures Run(cfg, Initial(n, open), events[..upTo]).open <= cfg.maxOpenPositions + n - 1
  {
    TruthfulPrefix(cfg, Initial(n, open), events, upTo);
    RunIsBounded(cfg, n, open, events[..upTo]);
  }

  lemma {:induction false} TruthfulPrefix(cfg: Settings, w: World, events: seq<Event>, upTo: nat)
    requires Truthful(cfg, w, events) && upTo <= |events|
    ensures Truthful(cfg, w, events[..upTo])
    decreases |events|
  {
    if upTo == |events| {
      assert events[..upTo] == events;
    } else {
      var last := |events| - 1;
      TruthfulPrefix(cfg, w, events[..last], upTo);
      assert events[..last][..upTo] == events[..upTo];
    }
  }
}
