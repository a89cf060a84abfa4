/** Intake: whatever is submitted and however it interleaves with processing, the signals
    table holds the first submission of each id, in order of arrival. */
module Intake {
  import opened Types
  import opened Pipeline
  import opened Machine
  import opened Safety

  predicate SubmittedId(submits: seq<Payload>, id: string) {
    exists i | 0 <= i < |submits| :: submits[i].id == id
  }

  /** Order-preserving de-duplication by id. */
  function FirstOccurrences(submits: seq<Payload>): seq<Payload> {
    if submits == [] then []
    else
      var n := |submits| - 1;
      FirstOccurrences(submits[..n]) + if SubmittedId(submits[..n], submits[n].id) then [] else [submits[n]]
  }

  function Payloads(signals: seq<SignalRow>): (r: seq<Payload>)
    ensures |r| == |signals| && forall i | 0 <= i < |r| :: r[i] == signals[i].payload
  {
    if signals == [] then [] else Payloads(signals[..|signals| - 1]) + [signals[|signals| - 1].payload]
  }

  /** `p` was submitted, and no earlier submission has its id. */
  ghost predicate IsFirstSubmission(submits: seq<Payload>, p: Payload) {
    exists i | 0 <= i < |submits| :: submits[i] == p && !SubmittedId(submits[..i], p.id)
  }

  lemma {:induction false} FirstOccurrencesMeaning(submits: seq<Payload>, p: Payload)
    ensures p in FirstOccurrences(submits) <==> IsFirstSubmission(submits, p)
    ensures (exists q | q in FirstOccurrences(submits) :: q.id == p.id) <==> SubmittedId(submits, p.id)
  {
    if submits != [] {
      var n := |submits| - 1;
      var before, last := submits[..n], submits[n];
      FirstOccurrencesMeaning(before, p);
      assert forall i | 0 <= i < n :: submits[i] == before[i] && submits[..i] == before[..i];
      assert SubmittedId(submits, p.id) <==> SubmittedId(before, p.id) || last.id == p.id;
      assert IsFirstSubmission(submits, p) <==> IsFirstSubmission(before, p) || (last == p && !SubmittedId(before, p.id)) by {
        if IsFirstSubmission(before, p) {
          var i :| 0 <= i < n && before[i] == p && !SubmittedId(before[..i], p.id);
          assert submits[i] == p && !SubmittedId(submits[..i], p.id);
        }
        if last == p && !SubmittedId(before, p.id) {
          assert submits[n] == p && !SubmittedId(submits[..n], p.id);
        }
      }
      if !SubmittedId(before, last.id) {
        assert last in FirstOccurrences(submits);
      } else {
        FirstOccurrencesMeaning(before, last);
      }
      assert forall q :: q in FirstOccurrences(submits) <==>
        q in FirstOccurrences(before) || (q == last && !SubmittedId(before, last.id));
    }
  }

  ghost predicate Deduplicated(w: World) {
    Payloads(w.t.signals) == FirstOccurrences(w.submits)
  }

  lemma SubmitDeduplicates(cfg: Settings, w: World, p: Payload)
    requires Deduplicated(w)
    ensures Deduplicated(Apply(cfg, w, Submit(p)))
    ensures |Apply(cfg, w, Submit(p)).t.signals| == |w.t.signals| + 1 <==> !SubmittedId(w.submits, p.id)
  {
    var v := Apply(cfg, w, Submit(p));
    assert v.submits[..|w.submits|] == w.submits;
    FirstOccurrencesMeaning(w.submits, p);
    assert HasId(w.t.signals, p.id) <==> SubmittedId(w.submits, p.id) by {
      if HasId(w.t.signals, p.id) {
        var i :| 0 <= i < |w.t.signals| && w.t.signals[i].payload.id == p.id;
        assert Payloads(w.t.signals)[i] in FirstOccurrences(w.submits);
      }
      if SubmittedId(w.submits, p.id) {
        var q :| q in FirstOccurrences(w.submits) && q.id == p.id;
        var i :| 0 <= i < |Payloads(w.t.signals)| && Payloads(w.t.signals)[i] == q;
        assert w.t.signals[i].payload.id == p.id;
      }
    }
  }

  lemma PerformKeepsPayloads(t: Tables, f: Effect)
    ensures Payloads(PerformOn(t, f).signals) == Payloads(t.signals)
  {
    assert |PerformOn(t, f).signals| == |t.signals|;
    forall i | 0 <= i < |t.signals|
      ensures Payloads(PerformOn(t, f).signals)[i] == Payloads(t.signals)[i]
    {
      StatusAfter(t, f, i);
    }
  }

  /** The table refines the de-duplicated submissions, in every run. */
  lemma {:induction false} RunDeduplicates(cfg: Settings, n: nat, open: nat, events: seq<Event>)
    ensures Deduplicated(Run(cfg, Initial(n, open), events))
  {
    if events != [] {
      var last := |events| - 1;
      var w, e := Run(cfg, Initial(n, open), events[..last]), events[last];
      RunDeduplicates(cfg, n, open, events[..last]);
      if e.Submit? {
        SubmitDeduplicates(cfg, w, e.payload);
      } else {
        if !e.PositionClosed? && e.k < |w.workers| {
          PerformKeepsPayloads(w.t, Choose(cfg, w, e).effect);
        }
      }
    }
  }

  /** The created flag is true exactly on the first submission of an id. */
  lemma CreatedExactlyOnFirst(cfg: Settings, n: nat, w: World, p: Payload)
    requires Reachable(cfg, n, w)
    ensures var after := Apply(cfg, w, Submit(p)).t.signals;
      && (!SubmittedId(w.submits, p.id) ==> after == w.t.signals + [SignalRow(p, None, Pending, 0)])
      && (SubmittedId(w.submits, p.id) ==> after == w.t.signals)
  {
    ReachableDeduplicates(cfg, n, w);
    SubmitDeduplicates(cfg, w, p);
  }

  lemma ReachableDeduplicates(cfg: Settings, n: nat, w: World)
    requires Reachable(cfg, n, w)
    ensures Deduplicated(w)
  {
    hide Run, Initial, Deduplicated;
    var open: nat, events: seq<Event> :| w == Run(cfg, Initial(n, open), events);
    RunDeduplicates(cfg, n, open, events);
  }
}
