/** The session store: per session, the prompts submitted so far, without repeats. */
module Sessions {

  predicate NoDuplicates(h: seq<string>)
  {
    forall i, j :: 0 <= i < j < |h| ==> h[i] != h[j]
  }

  /** The history of a session; an unknown session has an empty history. */
  function History(sessions: map<string, seq<string>>, sid: string): seq<string>
  {
    if sid in sessions then sessions[sid] else []
  }

  /** Recording one prompt: appended at the end unless it is already there. */
  function Record(h: seq<string>, p: string): (r: seq<string>)
    ensures h <= r
    ensures p in r
    ensures forall x :: x in r <==> x in h || x == p
    ensures |r| == if p in h then |h| else |h| + 1
    ensures NoDuplicates(h) ==> NoDuplicates(r)
  {
    if p in h then h else h + [p]
  }

  /** Recording a sequence of prompts one after the other. */
  function RecordAll(h: seq<string>, ps: seq<string>): (r: seq<string>)
    ensures h <= r
    ensures NoDuplicates(h) ==> NoDuplicates(r)
    decreases |ps|
  {
    if ps == [] then h else Record(RecordAll(h, ps[..|ps| - 1]), ps[|ps| - 1])
  }

  /** After a batch, the history holds exactly the earlier prompts and the batch's prompts. */
  lemma {:induction false} RecordAllMembers(h: seq<string>, ps: seq<string>, x: string)
    ensures x in RecordAll(h, ps) <==> x in h || x in ps
    decreases |ps|
  {
    if ps != [] {
      var init := ps[..|ps| - 1];
      RecordAllMembers(h, init, x);
      assert ps == init + [ps[|ps| - 1]];
    }
  }

  /** In a history without repeats, a recorded prompt occurs exactly once. */
  lemma {:induction false} OccursOnce(h: seq<string>, p: string)
    requires NoDuplicates(h)
    ensures multiset(h)[p] == if p in h then 1 else 0
  {
    if h != [] {
      var t := h[..|h| - 1];
      assert h == t + [h[|h| - 1]];
      assert NoDuplicates(t);
      OccursOnce(t, p);
    }
  }

  /** After recording, the prompt occurs in a duplicate-free history exactly once, whether or
      not it was there before. */
  lemma RecordedOnce(h: seq<string>, p: string)
    requires NoDuplicates(h)
    ensures multiset(Record(h, p))[p] == 1
  {
    OccursOnce(Record(h, p), p);
  }

  /** Prompts that were all recorded before leave the history unchanged. */
  lemma {:induction false} RecordAllPresent(h: seq<string>, ps: seq<string>)
    requires forall p :: p in ps ==> p in h
    ensures RecordAll(h, ps) == h
    decreases |ps|
  {
    if ps != [] {
      RecordAllPresent(h, ps[..|ps| - 1]);
    }
  }

  /** Re-submitting a batch changes nothing. */
  lemma RecordAllIdempotent(h: seq<string>, ps: seq<string>)
    ensures RecordAll(RecordAll(h, ps), ps) == RecordAll(h, ps)
  {
    forall p | p in ps ensures p in RecordAll(h, ps) {
      RecordAllMembers(h, ps, p);
    }
    RecordAllPresent(RecordAll(h, ps), ps);
  }

  /** Distinct new prompts are appended in submission order. */
  lemma {:induction false} RecordAllFresh(h: seq<string>, ps: seq<string>)
    requires NoDuplicates(ps)
    requires forall p :: p in ps ==> p !in h
    ensures RecordAll(h, ps) == h + ps
    decreases |ps|
  {
    if ps != [] {
      var init := ps[..|ps| - 1];
      var last := ps[|ps| - 1];
      assert ps == init + [last];
      assert NoDuplicates(init);
      RecordAllFresh(h, init);
      assert last !in init by {
        forall k | 0 <= k < |init| ensures init[k] != last {
          assert init[k] == ps[k];
        }
      }
      assert last !in h + init;
      assert h + ps == (h + init) + [last];
    }
  }

  /** Recording a batch one prompt longer records that prompt after the others. */
  lemma RecordAllStep(h: seq<string>, ps: seq<string>, i: nat)
    requires i < |ps|
    ensures RecordAll(h, ps[..i + 1]) == Record(RecordAll(h, ps[..i]), ps[i])
  {
    assert ps[..i + 1][..i] == ps[..i];
  }
}
