/**
  One click of the print button (`main` in src/main.js) against the session
  state that survives between clicks: the layout frame of the last print and
  the frame URLs of the last extraction. The transcoding engine is an input
  (`EngineReply`); every request the run makes of it, and every URL it
  creates or revokes, is appended in order to the session's `trace`.
 */
module Page {
  import opened Wrappers
  import opened Parameters
  import opened Frames
  import opened Markup
  import opened ObjectUrls
  import Decimal

  type Bytes = seq<bv8>

  /** A request to the transcoding engine. */
  datatype EngineCall =
    | Load
    | WriteFile(path: string, data: Bytes)
    | CreateDir(path: string)
    | Exec(args: seq<string>)
    | ListDir(path: string)
    | ReadFile(path: string)

  /** The engine requests made before the output listing is read, in order. */
  datatype Stage = Loading | WritingInput | CreatingOutputDir | Executing | Listing

  /** What the engine does for this run: fail at one of the stages, or list
      the output directory. */
  datatype EngineReply = FailsAt(stage: Stage) | Lists(entries: seq<Entry>)

  /** One observable step of a run. */
  datatype Event =
    | Detached
    | Revoked(url: Url)
    | Called(call: EngineCall)
    | Created(url: Url, blob: Blob)

  /** The printable document of the last run: tile width (inches) and body. */
  datatype Layout = Layout(tileWidth: real, body: string)

  datatype Outcome =
    | NoFile
    | EngineFailed(stage: Stage)
    | Printed(urls: seq<Url>, imagesPerRow: int)

  const InputPath: string := "/input"
  const OutputDir: string := "/output"
  const OutputPattern: string := "/output/output_%d.png"

  /** The video filter: sample `fps` frames per second, scale to 640 pixels wide. */
  function Filter(fps: nat): string {
    "fps=" + Decimal.Show(fps) + ",scale=640:-1"
  }

  /** The filter argument carries the frame rate exactly: between its fixed
      prefix and suffix stand the digits of `fps` and nothing else. */
  lemma FilterCarriesRate(fps: nat)
    ensures var f := Filter(fps);
      |f| > 17 && f[..4] == "fps=" && f[|f| - 13..] == ",scale=640:-1" &&
      Decimal.AllDigits(f[4..|f| - 13]) && Decimal.Value(f[4..|f| - 13]) == fps
  {
    var f := Filter(fps);
    Decimal.ValueOfShow(fps);
    assert f[4..|f| - 13] == Decimal.Show(fps);
  }

  /** The engine requests of a run before its frames are read. */
  function Preparation(file: Bytes, fps: nat): (cs: seq<EngineCall>)
    ensures |cs| == 5
  {
    [Load, WriteFile(InputPath, file), CreateDir(OutputDir),
     Exec(["-i", InputPath, "-vf", Filter(fps), OutputPattern]), ListDir(OutputDir)]
  }

  /** Position of a stage's request within `Preparation`. */
  function StageIndex(s: Stage): (i: nat)
    ensures i < 5
  {
    match s
    case Loading => 0
    case WritingInput => 1
    case CreatingOutputDir => 2
    case Executing => 3
    case Listing => 4
  }

  /** The path of output file `name`: the output directory, then the name. */
  function FramePath(name: string): string {
    OutputDir + "/" + name
  }

  /** Different output files are read from different paths. */
  lemma FramePathInjective(a: string, b: string)
    requires FramePath(a) == FramePath(b)
    ensures a == b
  {
    assert a == FramePath(a)[|OutputDir| + 1..];
    assert b == FramePath(b)[|OutputDir| + 1..];
  }

  function Calls(cs: seq<EngineCall>): (es: seq<Event>)
    ensures |es| == |cs|
  {
    seq(|cs|, i requires 0 <= i < |cs| => Called(cs[i]))
  }

  function Revocations(us: seq<Url>): (es: seq<Event>)
    ensures |es| == |us|
  {
    seq(|us|, i requires 0 <= i < |us| => Revoked(us[i]))
  }

  /** The events of the cleanup that opens every run. */
  function CleanupEvents(attached: bool, last: seq<Url>): (es: seq<Event>)
    ensures |es| == |last| + if attached then 1 else 0
  {
    (if attached then [Detached] else []) + Revocations(last)
  }

  /** The events of reading the frame files `names` and creating their URLs,
      the first of them allocation number `from`. */
  function ExtractionEvents(names: seq<string>, from: nat): (es: seq<Event>)
    ensures |es| == 2 * |names|
  {
    if names == [] then []
    else
      var k := |names| - 1;
      ExtractionEvents(names[..k], from)
        + [Called(ReadFile(FramePath(names[k]))), Created(BlobUrl(from + k), FrameBlob(FramePath(names[k])))]
  }

  lemma ExtractionSnoc(names: seq<string>, name: string, from: nat)
    ensures ExtractionEvents(names + [name], from) ==
      ExtractionEvents(names, from)
        + [Called(ReadFile(FramePath(name))), Created(BlobUrl(from + |names|), FrameBlob(FramePath(name)))]
  {
    assert (names + [name])[..|names|] == names;
  }

  /** The events of one more frame file, appended to a trace. */
  lemma ExtractionStep(t0: seq<Event>, names: seq<string>, name: string, from: nat)
    ensures t0 + ExtractionEvents(names + [name], from) ==
      t0 + ExtractionEvents(names, from)
        + [Called(ReadFile(FramePath(name))), Created(BlobUrl(from + |names|), FrameBlob(FramePath(name)))]
  {
    ExtractionSnoc(names, name, from);
  }

  /** The URL store after `names` were read and registered, the first of them
      as allocation number `from`. */
  function Registered(live: map<Url, Blob>, from: nat, names: seq<string>): map<Url, Blob>
  {
    if names == [] then live
    else
      var k := |names| - 1;
      Registered(live, from, names[..k])[BlobUrl(from + k) := FrameBlob(FramePath(names[k]))]
  }

  lemma RegisteredSnoc(live: map<Url, Blob>, from: nat, names: seq<string>, name: string)
    ensures Registered(live, from, names + [name]) ==
      Registered(live, from, names)[BlobUrl(from + |names|) := FrameBlob(FramePath(name))]
  {
    assert (names + [name])[..|names|] == names;
  }

  lemma AllocationsSnoc(from: nat, n: nat)
    ensures Allocations(from, n + 1) == Allocations(from, n) + [BlobUrl(from + n)]
  {
  }

  /** The state after the frame files `names` are collected, starting from
      trace `t0`, store contents `live0` and allocation counter `n0`. */
  ghost predicate Collected(t0: seq<Event>, live0: map<Url, Blob>, n0: nat, names: seq<string>,
                            frames: seq<Url>, t: seq<Event>, next: nat, live: map<Url, Blob>)
  {
    frames == Allocations(n0, |names|) && next == n0 + |names| &&
    t == t0 + ExtractionEvents(names, n0) && live == Registered(live0, n0, names)
  }

  /** Collecting one more file reads it and registers the next URL for its blob. */
  lemma CollectedSnoc(t0: seq<Event>, live0: map<Url, Blob>, n0: nat, names: seq<string>,
                      frames: seq<Url>, t: seq<Event>, next: nat, live: map<Url, Blob>, name: string)
    requires Collected(t0, live0, n0, names, frames, t, next, live)
    ensures Collected(t0, live0, n0, names + [name], frames + [BlobUrl(next)],
                      t + [Called(ReadFile(FramePath(name))), Created(BlobUrl(next), FrameBlob(FramePath(name)))],
                      next + 1, live[BlobUrl(next) := FrameBlob(FramePath(name))])
  {
    ExtractionStep(t0, names, name, n0);
    RegisteredSnoc(live0, n0, names, name);
    AllocationsSnoc(n0, |names|);
  }

  /** The allocations from number `from` on are none of the URLs handed out before. */
  lemma AllocationsAreNew(u: Url, from: nat, n: nat)
    requires IssuedBefore(u, from)
    ensures u !in Allocations(from, n)
  {
    var j :| 0 <= j < from && u == BlobUrl(j);
    if u in Allocations(from, n) {
      var i :| 0 <= i < n && Allocations(from, n)[i] == u;
      BlobUrlInjective(j, from + i);
    }
  }

  /** After registering, a URL is live exactly when it was live before or is
      one of the new allocations; one that was live keeps its blob, provided
      the live URLs all predate the allocations. */
  lemma {:induction false} RegisteredLookup(live: map<Url, Blob>, from: nat, names: seq<string>, u: Url)
    requires forall v :: v in live ==> IssuedBefore(v, from)
    ensures u in Registered(live, from, names) <==> u in live || u in Allocations(from, |names|)
    ensures u in live ==> Registered(live, from, names)[u] == live[u]
  {
    if names != [] {
      var k := |names| - 1;
      RegisteredLookup(live, from, names[..k], u);
      AllocationsSnoc(from, k);
      if u in live {
        AllocationsAreNew(u, from, |names|);
      }
    }
  }

  /** The URL of file `k` refers to the blob read from file `k`. */
  lemma {:induction false} RegisteredFrame(live: map<Url, Blob>, from: nat, names: seq<string>, k: nat)
    requires k < |names|
    ensures BlobUrl(from + k) in Registered(live, from, names)
    ensures Registered(live, from, names)[BlobUrl(from + k)] == FrameBlob(FramePath(names[k]))
  {
    var last := |names| - 1;
    if k < last {
      RegisteredFrame(live, from, names[..last], k);
      if BlobUrl(from + last) == BlobUrl(from + k) {
        BlobUrlInjective(from + last, from + k);
      }
    }
  }

  /** The URLs revoked in `es`, in order. */
  function RevokedUrls(es: seq<Event>): seq<Url>
  {
    if es == [] then []
    else RevokedUrls(es[..|es| - 1]) + (if es[|es| - 1].Revoked? then [es[|es| - 1].url] else [])
  }

  /** The engine requests made in `es`, in order. */
  function EngineCalls(es: seq<Event>): seq<EngineCall>
  {
    if es == [] then []
    else EngineCalls(es[..|es| - 1]) + (if es[|es| - 1].Called? then [es[|es| - 1].call] else [])
  }

  lemma {:induction false} ProjectionsAppend(a: seq<Event>, b: seq<Event>)
    ensures RevokedUrls(a + b) == RevokedUrls(a) + RevokedUrls(b)
    ensures EngineCalls(a + b) == EngineCalls(a) + EngineCalls(b)
  {
    if b == [] {
      assert a + b == a;
    } else {
      var b' := b[..|b| - 1];
      assert (a + b)[..|a + b| - 1] == a + b';
      assert (a + b)[|a + b| - 1] == b[|b| - 1];
      ProjectionsAppend(a, b');
    }
  }

  /** The cleanup revokes exactly the last URLs, in order, and asks nothing of the engine. */
  lemma {:induction false} CleanupProjections(attached: bool, last: seq<Url>)
    ensures RevokedUrls(CleanupEvents(attached, last)) == last
    ensures EngineCalls(CleanupEvents(attached, last)) == []
  {
    var head: seq<Event> := if attached then [Detached] else [];
    if attached {
      assert head[..0] == [];
    }
    ProjectionsAppend(head, Revocations(last));
    RevocationsProjections(last);
  }

  lemma {:induction false} RevocationsProjections(last: seq<Url>)
    ensures RevokedUrls(Revocations(last)) == last
    ensures EngineCalls(Revocations(last)) == []
  {
    if last != [] {
      var k := |last| - 1;
      assert Revocations(last)[..k] == Revocations(last[..k]);
      RevocationsProjections(last[..k]);
      assert last[..k] + [last[k]] == last;
    }
  }

  /** Issued engine requests appear in the trace as they were made and revoke nothing. */
  lemma {:induction false} CallsProjections(cs: seq<EngineCall>)
    ensures RevokedUrls(Calls(cs)) == []
    ensures EngineCalls(Calls(cs)) == cs
  {
    if cs != [] {
      var k := |cs| - 1;
      assert Calls(cs)[..k] == Calls(cs[..k]);
      CallsProjections(cs[..k]);
      assert cs[..k] + [cs[k]] == cs;
    }
  }

  /** Collecting frames revokes nothing and reads each frame file once, in order. */
  lemma {:induction false} ExtractionProjections(names: seq<string>, from: nat)
    ensures RevokedUrls(ExtractionEvents(names, from)) == []
    ensures EngineCalls(ExtractionEvents(names, from)) ==
      seq(|names|, i requires 0 <= i < |names| => ReadFile(FramePath(names[i])))
  {
    if names != [] {
      var k := |names| - 1;
      var p := FramePath(names[k]);
      ExtractionProjections(names[..k], from);
      var pair := [Called(ReadFile(p)), Created(BlobUrl(from + k), FrameBlob(p))];
      ProjectionsAppend(ExtractionEvents(names[..k], from), pair);
      PairProjections(ReadFile(p), BlobUrl(from + k), FrameBlob(p));
      ReadsSnoc(names);
    }
  }

  /** The reads of a list of frame files, split before its last file. */
  lemma ReadsSnoc(names: seq<string>)
    requires names != []
    ensures var k := |names| - 1;
      seq(|names|, i requires 0 <= i < |names| => ReadFile(FramePath(names[i]))) ==
      seq(k, i requires 0 <= i < k => ReadFile(FramePath(names[..k][i]))) + [ReadFile(FramePath(names[k]))]
  {
    var k := |names| - 1;
    var fileReads := seq(|names|, i requires 0 <= i < |names| => ReadFile(FramePath(names[i])));
    assert fileReads[..k] == seq(k, i requires 0 <= i < k => ReadFile(FramePath(names[..k][i])));
    assert fileReads == fileReads[..k] + [fileReads[k]];
  }

  lemma PairProjections(c: EngineCall, u: Url, b: Blob)
    ensures RevokedUrls([Called(c), Created(u, b)]) == []
    ensures EngineCalls([Called(c), Created(u, b)]) == [c]
  {
    var one := [Called(c)];
    var pair := [Called(c), Created(u, b)];
    assert one[..0] == [];
    assert EngineCalls(one) == EngineCalls(one[..0]) + [c];
    assert EngineCalls(one[..0]) == [];
    assert RevokedUrls(one) == RevokedUrls(one[..0]) + [];
    assert RevokedUrls(pair) == RevokedUrls(one) + [];
    assert pair[..1] == one;
  }

  /** How many times `es` detaches a layout frame. */
  function Detachments(es: seq<Event>): nat
  {
    if es == [] then 0
    else Detachments(es[..|es| - 1]) + (if es[|es| - 1].Detached? then 1 else 0)
  }

  lemma {:induction false} DetachmentsAppend(a: seq<Event>, b: seq<Event>)
    ensures Detachments(a + b) == Detachments(a) + Detachments(b)
  {
    if b == [] {
      assert a + b == a;
    } else {
      var b' := b[..|b| - 1];
      assert (a + b)[..|a + b| - 1] == a + b';
      assert (a + b)[|a + b| - 1] == b[|b| - 1];
      DetachmentsAppend(a, b');
    }
  }

  /** A trace segment without a `Detached` event detaches nothing. */
  lemma {:induction false} NoDetachments(es: seq<Event>)
    requires forall i :: 0 <= i < |es| ==> !es[i].Detached?
    ensures Detachments(es) == 0
  {
    if es != [] {
      var k := |es| - 1;
      assert forall i :: 0 <= i < k ==> es[..k][i] == es[i];
      NoDetachments(es[..k]);
    }
  }

  /** Collecting frames only reads files and creates URLs. */
  lemma {:induction false} ExtractionKinds(names: seq<string>, from: nat)
    ensures forall i :: 0 <= i < |ExtractionEvents(names, from)| ==>
      ExtractionEvents(names, from)[i].Called? || ExtractionEvents(names, from)[i].Created?
  {
    if names != [] {
      ExtractionKinds(names[..|names| - 1], from);
    }
  }

  /** A run detaches a layout frame once when one was attached, and otherwise never. */
  lemma RunDetachments(t: seq<Event>, attached: bool, last: seq<Url>, cs: seq<EngineCall>,
                       names: seq<string>, from: nat)
    ensures Detachments(t + CleanupEvents(attached, last) + Calls(cs) + ExtractionEvents(names, from))
         == Detachments(t) + if attached then 1 else 0
  {
    var head: seq<Event> := if attached then [Detached] else [];
    var rest := Revocations(last) + Calls(cs) + ExtractionEvents(names, from);
    ExtractionKinds(names, from);
    NoDetachments(rest);
    if attached {
      assert head[..0] == [];
    }
    assert t + CleanupEvents(attached, last) + Calls(cs) + ExtractionEvents(names, from) == t + head + rest;
    DetachmentsAppend(t, head);
    DetachmentsAppend(t + head, rest);
  }

  /** The document of a print lays out exactly the printed frame URLs, one
      tile each and in order: reading the tiles back gives them again. */
  lemma PrintedBodyReadsBack(from: nat, n: nat, repetitions: nat)
    ensures var urls := Cycle(Allocations(from, n), repetitions);
      ParseBody(Body(urls)) == Some(urls)
  {
    var frames := Allocations(from, n);
    var urls := Cycle(frames, repetitions);
    forall k | 0 <= k < |urls|
      ensures NoQuote(urls[k])
    {
      CycleAt(frames, repetitions, k);
    }
    ParseBodyOfBody(urls);
  }

  /** What a printing run adds to the trace's projections: the last URLs
      revoked, then the preparation requests and one read per frame file. */
  lemma PrintedRunProjections(t: seq<Event>, attached: bool, last: seq<Url>, cs: seq<EngineCall>,
                              names: seq<string>, from: nat)
    ensures RevokedUrls(t + CleanupEvents(attached, last) + Calls(cs) + ExtractionEvents(names, from))
         == RevokedUrls(t) + last
    ensures EngineCalls(t + CleanupEvents(attached, last) + Calls(cs) + ExtractionEvents(names, from))
         == EngineCalls(t) + cs + seq(|names|, i requires 0 <= i < |names| => ReadFile(FramePath(names[i])))
  {
    var c := CleanupEvents(attached, last);
    var x := ExtractionEvents(names, from);
    UnprintedRunProjections(t, attached, last, cs);
    ExtractionProjections(names, from);
    ProjectionsAppend(t + c + Calls(cs), x);
  }

  /** What a run that stops before printing adds to the trace's projections:
      the last URLs revoked, then the engine requests it got to. */
  lemma UnprintedRunProjections(t: seq<Event>, attached: bool, last: seq<Url>, cs: seq<EngineCall>)
    ensures RevokedUrls(t + CleanupEvents(attached, last) + Calls(cs)) == RevokedUrls(t) + last
    ensures EngineCalls(t + CleanupEvents(attached, last) + Calls(cs)) == EngineCalls(t) + cs
  {
    CleanupAppended(t, attached, last);
    CallsAppended(t + CleanupEvents(attached, last), cs);
  }

  lemma CleanupAppended(t: seq<Event>, attached: bool, last: seq<Url>)
    ensures RevokedUrls(t + CleanupEvents(attached, last)) == RevokedUrls(t) + last
    ensures EngineCalls(t + CleanupEvents(attached, last)) == EngineCalls(t)
  {
    CleanupProjections(attached, last);
    ProjectionsAppend(t, CleanupEvents(attached, last));
    assert EngineCalls(t) + [] == EngineCalls(t);
  }

  lemma CallsAppended(t: seq<Event>, cs: seq<EngineCall>)
    ensures RevokedUrls(t + Calls(cs)) == RevokedUrls(t)
    ensures EngineCalls(t + Calls(cs)) == EngineCalls(t) + cs
  {
    CallsProjections(cs);
    ProjectionsAppend(t, Calls(cs));
    assert RevokedUrls(t) + [] == RevokedUrls(t);
  }

  /** Nothing a run does after its cleanup revokes a URL: every revocation
      of a run precedes its first engine request and its first new URL. */
  ghost predicate CleanupFirst(es: seq<Event>) {
    forall i, j :: 0 <= i < j < |es| && es[j].Revoked? ==> es[i].Revoked? || es[i].Detached?
  }

  lemma RunEventsCleanupFirst(attached: bool, last: seq<Url>, cs: seq<EngineCall>, names: seq<string>, from: nat)
    ensures CleanupFirst(CleanupEvents(attached, last) + Calls(cs) + ExtractionEvents(names, from))
  {
    var c := CleanupEvents(attached, last);
    var rest := Calls(cs) + ExtractionEvents(names, from);
    CallsProjections(cs);
    ExtractionProjections(names, from);
    ProjectionsAppend(Calls(cs), ExtractionEvents(names, from));
    NoRevokedWhenProjectionEmpty(rest);
    assert c + Calls(cs) + ExtractionEvents(names, from) == c + rest;
    forall i | 0 <= i < |c|
      ensures c[i].Revoked? || c[i].Detached?
    {
      if !attached {
        assert c[i] == Revocations(last)[i];
      } else if i > 0 {
        assert c[i] == Revocations(last)[i - 1];
      }
    }
  }

  lemma {:induction false} NoRevokedWhenProjectionEmpty(es: seq<Event>)
    requires RevokedUrls(es) == []
    ensures forall i :: 0 <= i < |es| ==> !es[i].Revoked?
  {
    if es != [] {
      var k := |es| - 1;
      NoRevokedWhenProjectionEmpty(es[..k]);
      assert forall i :: 0 <= i < k ==> es[i] == es[..k][i];
    }
  }

  lemma MembersSnoc(us: seq<Url>, x: Url)
    ensures (set u | u in us + [x]) == (set u | u in us) + {x}
  {
  }

  class Session {
    /** The layout frame of the last print (`iframe`), if any. */
    var layout: Option<Layout>
    /** Whether that frame is attached to the page. */
    var attached: bool
    /** The frame URLs of the last successful extraction (`lastPngUrls`). */
    var lastUrls: seq<Url>
    /** Everything the session has done, in order. */
    var trace: seq<Event>
    /** The browser's object-URL store. */
    const store: Registry

    ghost predicate Valid()
      reads this, store
    {
      store.Valid()
    }

    constructor ()
      ensures Valid() && fresh(store)
      ensures layout == None && !attached && lastUrls == [] && trace == []
      ensures store.next == 0 && store.live == map[]
    {
      layout := None;
      attached := false;
      lastUrls := [];
      trace := [];
      store := new Registry();
    }

    /** Detach the last layout frame and revoke every URL of the last extraction. */
    method Cleanup()
      requires Valid()
      modifies this, store
      ensures Valid()
      ensures !attached && layout == old(layout) && lastUrls == old(lastUrls)
      ensures trace == old(trace) + CleanupEvents(old(attached), lastUrls)
      ensures store.next == old(store.next)
      ensures store.live == old(store.live) - set u | u in lastUrls
    {
      if attached {
        attached := false;
        trace := trace + [Detached];
      }
      ghost var t0 := trace;
      var i := 0;
      while i < |lastUrls|
        invariant 0 <= i <= |lastUrls|
        invariant Valid() && !attached && layout == old(layout) && lastUrls == old(lastUrls)
        invariant trace == t0 + Revocations(lastUrls[..i])
        invariant store.next == old(store.next)
        invariant store.live == old(store.live) - set u | u in lastUrls[..i]
      {
        store.Revoke(lastUrls[i]);
        assert Revocations(lastUrls[..i + 1]) == Revocations(lastUrls[..i]) + [Revoked(lastUrls[i])];
        assert lastUrls[..i + 1] == lastUrls[..i] + [lastUrls[i]];
        MembersSnoc(lastUrls[..i], lastUrls[i]);
        trace := trace + [Revoked(lastUrls[i])];
        i := i + 1;
      }
      assert lastUrls[..i] == lastUrls;
    }

    /** One file of the listing: read it from the engine, create a URL for its blob. */
    method CollectFile(name: string) returns (url: Url)
      requires Valid()
      modifies this`trace, store
      ensures Valid()
      ensures url == BlobUrl(old(store.next)) && store.next == old(store.next) + 1
      ensures trace == old(trace) + [Called(ReadFile(FramePath(name))), Created(url, FrameBlob(FramePath(name)))]
      ensures store.live == old(store.live)[url := FrameBlob(FramePath(name))]
    {
      var path := FramePath(name);
      trace := trace + [Called(ReadFile(path))];
      url := store.Create(FrameBlob(path));
      trace := trace + [Created(url, FrameBlob(path))];
    }

    /** The frame-collection loop: for every file of the listing, in order,
        read it from the engine and create a URL for its blob. */
    method CollectFrames(entries: seq<Entry>) returns (frames: seq<Url>)
      requires Valid()
      modifies this`trace, store
      ensures Valid()
      ensures frames == Allocations(old(store.next), |FileNames(entries)|)
      ensures store.next == old(store.next) + |frames|
      ensures trace == old(trace) + ExtractionEvents(FileNames(entries), old(store.next))
      ensures store.live == Registered(old(store.live), old(store.next), FileNames(entries))
    {
      ghost var n0 := store.next;
      ghost var live0 := store.live;
      ghost var t0 := trace;
      ghost var names: seq<string> := [];
      frames := [];
      var k := 0;
      while k < |entries|
        invariant 0 <= k <= |entries|
        invariant Valid()
        invariant names == FileNames(entries[..k])
        invariant Collected(t0, live0, n0, names, frames, trace, store.next, store.live)
      {
        FileNamesSnoc(entries, k);
        if !entries[k].isDir {
          var name := entries[k].name;
          CollectedSnoc(t0, live0, n0, names, frames, trace, store.next, store.live, name);
          var url := CollectFile(name);
          frames := frames + [url];
          names := names + [name];
        } else {
          assert names + [] == names;
        }
        k := k + 1;
      }
      assert entries[..k] == entries;
    }

    /** `printPNGs`: build the layout for `urls` and attach it to the page. */
    method PrintPngs(urls: seq<Url>, imagesPerRow: int)
      requires imagesPerRow >= 1
      modifies this`layout, this`attached
      ensures layout == Some(Layout(TileWidth(imagesPerRow), Body(urls))) && attached
    {
      layout := Some(Layout(TileWidth(imagesPerRow), Body(urls)));
      attached := true;
    }

    /** One click of the print button. */
    method Run(file: Option<Bytes>, repetitions: Option<int>, fps: Option<int>, rows: Option<int>,
               reply: EngineReply) returns (outcome: Outcome)
      requires Valid()
      modifies this, store
      ensures Valid()
      // no file: the cleanup and nothing else
      ensures file.None? ==>
        outcome == NoFile && !attached && layout == old(layout) && lastUrls == old(lastUrls) &&
        trace == old(trace) + CleanupEvents(old(attached), old(lastUrls)) &&
        store.next == old(store.next) && store.live == old(store.live) - set u | u in old(lastUrls)
      // the engine fails: the cleanup, then its requests up to the failing one
      ensures file.Some? && reply.FailsAt? ==>
        outcome == EngineFailed(reply.stage) && !attached && layout == old(layout) &&
        lastUrls == old(lastUrls) &&
        trace == old(trace) + CleanupEvents(old(attached), old(lastUrls))
                 + Calls(Preparation(file.value, Resolve(repetitions, fps, rows).fps)[..StageIndex(reply.stage) + 1]) &&
        store.next == old(store.next) && store.live == old(store.live) - set u | u in old(lastUrls)
      // the engine lists its output: the cleanup, the requests, the frames
      // collected, repeated and laid out
      ensures file.Some? && reply.Lists? ==>
        var s := Resolve(repetitions, fps, rows);
        var names := FileNames(reply.entries);
        outcome == Printed(Cycle(lastUrls, s.repetitions), s.rows) &&
        lastUrls == Allocations(old(store.next), |names|) &&
        attached && layout == Some(Layout(TileWidth(s.rows), Body(outcome.urls))) &&
        trace == old(trace) + CleanupEvents(old(attached), old(lastUrls))
                 + Calls(Preparation(file.value, s.fps)) + ExtractionEvents(names, old(store.next)) &&
        store.next == old(store.next) + |names| &&
        store.live == Registered(old(store.live) - set u | u in old(lastUrls), old(store.next), names)
    {
      Cleanup();
      ghost var afterCleanup := trace;
      if file.None? {
        return NoFile;
      }
      var s := Resolve(repetitions, fps, rows);
      var calls := Preparation(file.value, s.fps);
      match reply
      case FailsAt(stage) =>
        trace := trace + Calls(calls[..StageIndex(stage) + 1]);
        return EngineFailed(stage);
      case Lists(entries) =>
        trace := trace + Calls(calls);
        var collected := CollectFrames(entries);
        lastUrls := collected;
        var pngUrls := Repeat(collected, s.repetitions);
        PrintPngs(pngUrls, s.rows);
        outcome := Printed(pngUrls, s.rows);
    }
  }
}
