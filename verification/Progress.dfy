/** Progress and absorption: the work left never grows without a submission, every claim and
    every settlement makes it smaller, and with one worker a settled status is final. */
module Progress {
  import opened Types
  import opened Pipeline
  import opened Machine
  import opened Safety

  function Tally(signals: seq<SignalRow>, status: Status): nat {
    |RowsWith(signals, status)|
  }

  function One(yes: bool): nat {
    if yes then 1 else 0
  }

  /** Two units for a waiting row, one for a row in progress. */
  function WorkLeft(signals: seq<SignalRow>): nat {
    2 * Tally(signals, Pending) + Tally(signals, Processing)
  }

  lemma {:induction false} TallyUpdate(signals: seq<SignalRow>, i: nat, r: SignalRow, status: Status)
    requires i < |signals|
    ensures Tally(signals[i := r], status) == Tally(signals, status) - One(signals[i].status == status) + One(r.status == status)
    decreases |signals|
  {
    var n := |signals| - 1;
    if i < n {
      TallyUpdate(signals[..n], i, r, status);
      assert signals[i := r][..n] == signals[..n][i := r];
    } else {
      assert signals[i := r][..n] == signals[..n];
    }
  }

  lemma TallyZero(signals: seq<SignalRow>, status: Status)
    ensures Tally(signals, status) == 0 <==> forall i | 0 <= i < |signals| :: signals[i].status != status
  {
    var rows := RowsWith(signals, status);
    if rows != [] {
      assert rows[0] in rows;
    } else {
      assert forall i | 0 <= i < |signals| :: i !in rows;
    }
  }

  lemma {:induction false} TallyConserved(signals: seq<SignalRow>, claimed: nat)
    requires claimed <= |signals|
    requires forall i | 0 <= i < |signals| :: signals[i].status == Pending <==> claimed <= i
    ensures Tally(signals, Pending) == |signals| - claimed
    decreases |signals|
  {
    if signals != [] {
      var n := |signals| - 1;
      TallyConserved(signals[..n], if claimed <= n then claimed else n);
    }
  }

  /** Waiting rows and claims add up to the table: each claim takes exactly one row, so
      `n` waiting rows are gone after `n` claims, whatever became of the attempts. */
  lemma PendingAndClaimsAddUp(cfg: Settings, n: nat, w: World)
    requires Reachable(cfg, n, w)
    ensures Tally(w.t.signals, Pending) + |w.claims| == |w.t.signals|
  {
    ReachableIsSafe(cfg, n, w);
    hide Run;
    forall i | 0 <= i < |w.t.signals|
      ensures w.t.signals[i].status == Pending <==> |w.claims| <= i
    {
      assert RowOk(w.t.signals[i], i < |w.claims|);
    }
    TallyConserved(w.t.signals, |w.claims|);
  }

  // ---- the measure ----

  function Weight(status: Status): nat {
    2 * One(status == Pending) + One(status == Processing)
  }

  lemma WorkUpdate(signals: seq<SignalRow>, i: nat, r: SignalRow)
    requires i < |signals|
    ensures WorkLeft(signals[i := r]) == WorkLeft(signals) - Weight(signals[i].status) + Weight(r.status)
  {
    TallyUpdate(signals, i, r, Pending);
    TallyUpdate(signals, i, r, Processing);
  }

  /** The row whose status an effect changes. */
  function Settles(f: Effect): Option<nat> {
    match f
    case ClaimRow(i) => Some(i)
    case SetStatus(i, _) => Some(i)
    case Reconciled(i, _, _) => Some(i)
    case _ => None
  }

  lemma EffectWork(t: Tables, f: Effect)
    ensures var q := PerformOn(t, f).signals;
      match Settles(f)
      case Some(i) => i < |t.signals| ==> |q| == |t.signals| && WorkLeft(q) == WorkLeft(t.signals) - Weight(t.signals[i].status) + Weight(q[i].status)
      case None => WorkLeft(q) == WorkLeft(t.signals)
  {
    match f
    case ClaimRow(i) => if i < |t.signals| { WorkUpdate(t.signals, i, PerformOn(t, f).signals[i]); }
    case SetStatus(i, _) => if i < |t.signals| { WorkUpdate(t.signals, i, PerformOn(t, f).signals[i]); }
    case Reconciled(i, _, _) => if i < |t.signals| { WorkUpdate(t.signals, i, PerformOn(t, f).signals[i]); }
    case StoreSymbol(i, _) => if i < |t.signals| { WorkUpdate(t.signals, i, PerformOn(t, f).signals[i]); }
    case _ =>
  }

  /** What a legal move leaves to do. */
  lemma MoveWork(w: World, k: nat, m: Move)
    requires Queue(w) && Workers(w) && k < |w.workers| && Legal(w, k, m)
    ensures WorkLeft(PerformOn(w.t, m.effect).signals) <= WorkLeft(w.t.signals)
    ensures m.effect.ClaimRow? ==> WorkLeft(PerformOn(w.t, m.effect).signals) + 1 == WorkLeft(w.t.signals)
  {
    var f, was := m.effect, w.workers[k];
    assert PhaseOk(w, was);
    EffectWork(w.t, f);
    if f.Reconciled? {
      assert f.row in was.queue;
    }
  }

  /** Without a submission the work left never rises, and a claim lowers it. */
  lemma WorkNeverRises(cfg: Settings, n: nat, w: World, e: Event)
    requires Reachable(cfg, n, w)
    requires !e.Submit?
    ensures var v := Apply(cfg, w, e);
      WorkLeft(v.t.signals) + (|v.claims| - |w.claims|) <= WorkLeft(w.t.signals) && |v.claims| >= |w.claims|
  {
    ReachableIsSafe(cfg, n, w);
    hide Run, RowsWith;
    if !e.PositionClosed? && e.k < |w.workers| {
      ChooseLegal(cfg, w, e);
      MoveWork(w, e.k, Choose(cfg, w, e));
    }
  }

  // ---- absorption ----

  /** With one worker, the row in hand and the rows still to be recovered are PROCESSING. */
  ghost predicate InFlight(w: World) {
    && |w.workers| == 1
    && match w.workers[0]
       case Recovering(q) =>
         && (forall i | i in q :: i < |w.t.signals| && w.t.signals[i].status == Processing)
         && (forall a, b | 0 <= a < b < |q| :: q[a] < q[b])
       case Running(_, j) => j.row < |w.t.signals| && w.t.signals[j.row].status == Processing
       case _ => true
  }

  lemma MoveKeepsInFlight(w: World, m: Move)
    requires InFlight(w) && Legal(w, 0, m)
    ensures InFlight(Perform(w, 0, m))
  {
    var was := w.workers[0];
    if m.effect.Reconciled? {
      forall i | i in m.phase.queue
        ensures i != was.queue[0] && i in was.queue
      {
      }
    }
  }

  /** A move changes the status of a pending or processing row only. */
  lemma MoveKeepsSettled(w: World, m: Move, i: nat)
    requires InFlight(w) && Legal(w, 0, m) && i < |w.t.signals| && Settled(w.t.signals[i].status)
    ensures var q := PerformOn(w.t, m.effect).signals;
      i < |q| && q[i].status == w.t.signals[i].status
  {
    StatusAfter(w.t, m.effect, i);
    if m.effect.Reconciled? {
      assert m.effect.row in w.workers[0].queue;
    }
  }

  lemma {:induction false} RunIsInFlight(cfg: Settings, open: nat, events: seq<Event>)
    ensures InFlight(Run(cfg, Initial(1, open), events))
  {
    if events != [] {
      var last := |events| - 1;
      var w, e := Run(cfg, Initial(1, open), events[..last]), events[last];
      RunIsInFlight(cfg, open, events[..last]);
      RunIsSafe(cfg, 1, open, events[..last]);
      if !e.Submit? && !e.PositionClosed? && e.k == 0 {
        ChooseLegal(cfg, w, e);
        MoveKeepsInFlight(w, Choose(cfg, w, e));
      }
    }
  }

  lemma EventKeepsSettled(cfg: Settings, w: World, e: Event, i: nat)
    requires InFlight(w) && Queue(w) && Workers(w) && i < |w.t.signals| && Settled(w.t.signals[i].status)
    ensures var v := Apply(cfg, w, e); i < |v.t.signals| && v.t.signals[i].status == w.t.signals[i].status
  {
    if !e.Submit? && !e.PositionClosed? && e.k == 0 {
      ChooseLegal(cfg, w, e);
      MoveKeepsSettled(w, Choose(cfg, w, e), i);
    }
  }

  /** A settled status is final: it is the same at every later point of the run. */
  lemma {:induction false} SettledIsFinal(cfg: Settings, open: nat, events: seq<Event>, from: nat, i: nat)
    requires from <= |events|
    ensures var w := Run(cfg, Initial(1, open), events[..from]);
      var v := Run(cfg, Initial(1, open), events);
      i < |w.t.signals| && Settled(w.t.signals[i].status) ==>
        i < |v.t.signals| && v.t.signals[i].status == w.t.signals[i].status
    decreases |events|
  {
    if from == |events| {
      assert events[..from] == events;
    } else {
      var last := |events| - 1;
      assert events[..last][..from] == events[..from];
      SettledIsFinal(cfg, open, events[..last], from, i);
      RunIsInFlight(cfg, open, events[..last]);
      RunIsSafe(cfg, 1, open, events[..last]);
      FinalStep(cfg, open, events, i);
    }
  }

  lemma FinalStep(cfg: Settings, open: nat, events: seq<Event>, i: nat)
    requires events != []
    requires var w := Run(cfg, Initial(1, open), events[..|events| - 1]); InFlight(w) && Queue(w) && Workers(w)
    ensures var w := Run(cfg, Initial(1, open), events[..|events| - 1]);
      var v := Run(cfg, Initial(1, open), events);
      i < |w.t.signals| && Settled(w.t.signals[i].status) ==>
        i < |v.t.signals| && v.t.signals[i].status == w.t.signals[i].status
  {
    var w := Run(cfg, Initial(1, open), events[..|events| - 1]);
    if i < |w.t.signals| && Settled(w.t.signals[i].status) {
      EventKeepsSettled(cfg, w, events[|events| - 1], i);
    }
  }
}
