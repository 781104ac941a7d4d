/**
  Consecutive clicks on one page: each click is a run of `main` against the
  state the click before it left behind.
 */
module Scenarios {
  import opened Wrappers
  import opened Frames
  import opened ObjectUrls
  import opened Page

  /** What one click reads from the three numeric widgets; each click reads
      them anew, so the user may change them between clicks. */
  datatype Fields = Fields(repetitions: Option<int>, fps: Option<int>, rows: Option<int>)

  /** Two clicks that both print: the second revokes exactly the frame URLs
      of the first, each once and in order, and detaches the first layout
      frame, once and before anything else it does; afterwards the live URLs
      are exactly the frame URLs of the second. `secondClick` is what the
      second click did. */
  method TwoPrints(file1: Bytes, entries1: seq<Entry>, fields1: Fields,
                   file2: Bytes, entries2: seq<Entry>, fields2: Fields)
    returns (first: seq<Url>, second: seq<Url>, revoked: seq<Url>, detached: nat,
             secondClick: seq<Event>, live: set<Url>)
    ensures |first| == |FileNames(entries1)| && |second| == |FileNames(entries2)|
    ensures forall i, j :: 0 <= i < j < |first| ==> first[i] != first[j]
    ensures forall u :: u in first ==> u !in second
    ensures revoked == first
    ensures detached == 1
    ensures |secondClick| >= 1 && secondClick[0] == Detached
    ensures live == set u | u in second
  {
    var s := FirstPrint(file1, entries1, fields1);
    first := s.lastUrls;
    var firstLength := |s.trace|;
    ghost var t1, n1 := s.trace, s.store.next;
    var o2 := s.Run(Some(file2), fields2.repetitions, fields2.fps, fields2.rows, Lists(entries2));
    second := s.lastUrls;
    revoked := RevokedUrls(s.trace);
    detached := Detachments(s.trace);
    secondClick := s.trace[firstLength..];
    live := s.store.live.Keys;

    ghost var names1, names2 := FileNames(entries1), FileNames(entries2);
    ghost var calls2 := Preparation(file2, Parameters.Resolve(fields2.repetitions, fields2.fps, fields2.rows).fps);
    AllocationsDistinct(0, |names1|);
    PrintedRunProjections(t1, true, first, calls2, names2, n1);
    RunDetachments(t1, true, first, calls2, names2, n1);
    DetachedFirst(t1, first, calls2, names2, n1);
    SecondPrintRegistry(names1, names2);
    AllocationsDisjoint(0, |names1|, |names2|);
  }

  /** The first click on a new page, when it prints: nothing is revoked and
      no frame detached yet, the layout frame is attached, and the live URLs
      are exactly the frame URLs of this click. */
  method FirstPrint(file: Bytes, entries: seq<Entry>, fields: Fields)
    returns (s: Session)
    ensures fresh(s) && fresh(s.store) && s.Valid() && s.attached
    ensures s.lastUrls == Allocations(0, |FileNames(entries)|) && s.store.next == |FileNames(entries)|
    ensures s.store.live == Registered(map[], 0, FileNames(entries))
    ensures RevokedUrls(s.trace) == [] && Detachments(s.trace) == 0
  {
    s := new Session();
    ghost var empty: map<Url, Blob> := map[];
    assert empty - (set u | u in s.lastUrls) == empty;
    var o := s.Run(Some(file), fields.repetitions, fields.fps, fields.rows, Lists(entries));
    ghost var names := FileNames(entries);
    ghost var calls := Preparation(file, Parameters.Resolve(fields.repetitions, fields.fps, fields.rows).fps);
    PrintedRunProjections([], false, [], calls, names, 0);
    RunDetachments([], false, [], calls, names, 0);
    assert [] + CleanupEvents(false, []) + Calls(calls) + ExtractionEvents(names, 0) == s.trace;
    assert Detachments([]) == 0;
  }

  /** A print, then a click that does not print (no file chosen, or the
      engine failing), then a print: the click in between leaves the last
      print's frame URLs in place, so the third click revokes them again,
      and the URLs of the first print are revoked twice in all. The click
      without a file asks nothing of the engine. */
  method PrintAgainAfterFailure(file1: Bytes, entries1: seq<Entry>, fields1: Fields,
                                middle: Option<Bytes>, stage: Stage, fields2: Fields,
                                file3: Bytes, entries3: seq<Entry>, fields3: Fields)
    returns (first: seq<Url>, middleOutcome: Outcome, callsBefore: seq<EngineCall>,
             callsAfter: seq<EngineCall>, revoked: seq<Url>)
    ensures |first| == |FileNames(entries1)|
    ensures middle.None? ==> middleOutcome == NoFile && callsAfter == callsBefore
    ensures middle.Some? ==>
      middleOutcome == EngineFailed(stage) &&
      callsAfter == callsBefore
        + Preparation(middle.value, Parameters.Resolve(fields2.repetitions, fields2.fps, fields2.rows).fps)[..StageIndex(stage) + 1]
    ensures revoked == first + first
  {
    var s := FirstPrint(file1, entries1, fields1);
    first := s.lastUrls;
    ghost var t1 := s.trace;
    callsBefore := EngineCalls(s.trace);
    middleOutcome := s.Run(middle, fields2.repetitions, fields2.fps, fields2.rows, FailsAt(stage));
    callsAfter := EngineCalls(s.trace);
    ghost var t2, n2 := s.trace, s.store.next;
    var o3 := s.Run(Some(file3), fields3.repetitions, fields3.fps, fields3.rows, Lists(entries3));
    revoked := RevokedUrls(s.trace);

    ghost var s2 := Parameters.Resolve(fields2.repetitions, fields2.fps, fields2.rows);
    ghost var s3 := Parameters.Resolve(fields3.repetitions, fields3.fps, fields3.rows);
    if middle.None? {
      CleanupAppended(t1, true, first);
    } else {
      UnprintedRunProjections(t1, true, first, Preparation(middle.value, s2.fps)[..StageIndex(stage) + 1]);
    }
    assert RevokedUrls(t2) == first;
    PrintedRunProjections(t2, false, first, Preparation(file3, s3.fps), FileNames(entries3), n2);
  }


  /** A click that finds a layout frame attached detaches it before anything else. */
  lemma DetachedFirst(t: seq<Event>, last: seq<Url>, cs: seq<EngineCall>, names: seq<string>, from: nat)
    ensures var run := t + CleanupEvents(true, last) + Calls(cs) + ExtractionEvents(names, from);
      |run| > |t| && run[|t|] == Detached
  {
  }

  /** After two prints on a fresh page, the live URLs are exactly the
      frames of the second: the first print's frames went in its cleanup. */
  lemma SecondPrintRegistry(names1: seq<string>, names2: seq<string>)
    ensures var first := Allocations(0, |names1|);
      Registered(Registered(map[], 0, names1) - set u | u in first, |names1|, names2).Keys
        == set u | u in Allocations(|names1|, |names2|)
  {
    CleanupEmptiesRegistry(names1);
    RegistryOfEmpty(|names1|, names2);
  }

  /** Revoking every frame of a print on a fresh page leaves nothing live. */
  lemma CleanupEmptiesRegistry(names: seq<string>)
    ensures Registered(map[], 0, names) - (set u | u in Allocations(0, |names|)) == map[]
  {
    var r := Registered(map[], 0, names);
    forall u | u in r
      ensures u in Allocations(0, |names|)
    {
      RegisteredLookup(map[], 0, names, u);
    }
  }

  /** Registering frames on an empty registry makes exactly their URLs live. */
  lemma RegistryOfEmpty(from: nat, names: seq<string>)
    ensures Registered(map[], from, names).Keys == set u | u in Allocations(from, |names|)
  {
    forall u
      ensures u in Registered(map[], from, names) <==> u in Allocations(from, |names|)
    {
      RegisteredLookup(map[], from, names, u);
    }
  }

  /** A later allocation never hands out a URL of an earlier one. */
  lemma AllocationsDisjoint(from: nat, n: nat, m: nat)
    ensures forall u :: u in Allocations(from, n) ==> u !in Allocations(from + n, m)
  {
    var earlier := Allocations(from, n);
    forall i | 0 <= i < n
      ensures earlier[i] !in Allocations(from + n, m)
    {
      assert from + i < from + n && earlier[i] == BlobUrl(from + i);
      AllocationsAreNew(earlier[i], from + n, m);
    }
  }

}
