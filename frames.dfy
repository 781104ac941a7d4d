/**
  The frame list of a run: which entries of the engine's output-directory
  listing become frames, and how the frame list is repeated.
 */
module Frames {

  /** One entry of the engine's directory listing. */
  datatype Entry = Entry(name: string, isDir: bool)

  /** Names of the non-directory entries, in listing order. */
  function FileNames(listing: seq<Entry>): (names: seq<string>)
    ensures |names| <= |listing|
  {
    if listing == [] then []
    else (if listing[0].isDir then [] else [listing[0].name]) + FileNames(listing[1..])
  }

  /** Selecting files commutes with concatenating listings, so the relative
      order of the files is the listing's own (nothing is re-sorted). */
  lemma {:induction false} FileNamesAppend(a: seq<Entry>, b: seq<Entry>)
    ensures FileNames(a + b) == FileNames(a) + FileNames(b)
  {
    if a == [] {
      assert a + b == b;
    } else {
      assert (a + b)[0] == a[0];
      assert (a + b)[1..] == a[1..] + b;
      FileNamesAppend(a[1..], b);
    }
  }

  /** Extending a listing prefix by one entry adds that entry's name when it is a file. */
  lemma FileNamesSnoc(listing: seq<Entry>, k: nat)
    requires k < |listing|
    ensures FileNames(listing[..k + 1]) ==
      FileNames(listing[..k]) + if listing[k].isDir then [] else [listing[k].name]
  {
    assert listing[..k + 1] == listing[..k] + [listing[k]];
    FileNamesAppend(listing[..k], [listing[k]]);
    assert [listing[k]][1..] == [];
  }

  /** A name is selected exactly when some non-directory entry carries it. */
  lemma {:induction false} FileNamesMembership(listing: seq<Entry>, x: string)
    ensures x in FileNames(listing) <==>
            exists i :: 0 <= i < |listing| && !listing[i].isDir && listing[i].name == x
  {
    if listing != [] {
      FileNamesMembership(listing[1..], x);
      if x in FileNames(listing[1..]) {
        var i :| 0 <= i < |listing[1..]| && !listing[1..][i].isDir && listing[1..][i].name == x;
        assert !listing[i + 1].isDir && listing[i + 1].name == x;
      }
      if exists i :: 0 <= i < |listing| && !listing[i].isDir && listing[i].name == x {
        var i :| 0 <= i < |listing| && !listing[i].isDir && listing[i].name == x;
        if i > 0 {
          assert !listing[1..][i - 1].isDir && listing[1..][i - 1].name == x;
        }
      }
    }
  }

  /** Directory entries alone contribute nothing; every file contributes one name. */
  lemma {:induction false} FileNamesCount(listing: seq<Entry>)
    ensures |FileNames(listing)| == |listing| <==> (forall i :: 0 <= i < |listing| ==> !listing[i].isDir)
    ensures FileNames(listing) == [] <==> (forall i :: 0 <= i < |listing| ==> listing[i].isDir)
  {
    if listing != [] {
      FileNamesCount(listing[1..]);
      assert forall i :: 1 <= i < |listing| ==> listing[i] == listing[1..][i - 1];
    }
  }

  lemma {:induction false} MulAtLeast(n: nat, d: int)
    requires d >= 1
    ensures n * d >= n
  {
    if d > 1 {
      MulAtLeast(n, d - 1);
      assert n * d == n * (d - 1) + n;
    }
  }

  /** Index `q * n + t` of a repetition falls on position `t` of the block. */
  lemma ModOfBlock(q: nat, n: nat, t: nat)
    requires t < n
    ensures (q * n + t) % n == t
  {
    var x := q * n + t;
    var d := x / n - q;
    assert n * (x / n) + x % n == x;
    assert n * d == t - x % n by {
      assert n * d == n * (x / n) - n * q;
    }
    if d >= 1 {
      MulAtLeast(n, d);
    } else if d <= -1 {
      MulAtLeast(n, -d);
    }
  }

  /** `k` copies of `frames` back to back. */
  ghost function Cycle<T>(frames: seq<T>, k: nat): seq<T>
  {
    if k == 0 then [] else Cycle(frames, k - 1) + frames
  }

  /** The cycle has `k` blocks, and position `j` holds element `j mod n` of the block. */
  lemma {:induction false} CycleAt<T>(frames: seq<T>, k: nat, j: nat)
    requires j < |Cycle(frames, k)|
    ensures |frames| > 0 && Cycle(frames, k)[j] == frames[j % |frames|]
  {
    CycleLength(frames, k);
    var prev := Cycle(frames, k - 1);
    CycleLength(frames, k - 1);
    if j < |prev| {
      CycleAt(frames, k - 1, j);
    } else {
      ModOfBlock(k - 1, |frames|, j - |prev|);
    }
  }

  lemma {:induction false} CycleLength<T>(frames: seq<T>, k: nat)
    ensures |Cycle(frames, k)| == k * |frames|
  {
    if k > 0 {
      CycleLength(frames, k - 1);
      assert k * |frames| == (k - 1) * |frames| + |frames|;
    }
  }

  /** The repetition loop: `frames` followed by `count - 1` further copies of
      the snapshot `frames`. A count below 1 leaves the list as it is. */
  method Repeat<T>(frames: seq<T>, count: int) returns (r: seq<T>)
    ensures count <= 1 ==> r == frames
    ensures count >= 1 ==> |r| == count * |frames|
    ensures forall i :: 0 <= i < |r| ==> |frames| > 0 && r[i] == frames[i % |frames|]
    ensures |r| >= |frames| && r[..|frames|] == frames
    ensures r == Cycle(frames, if count >= 1 then count else 1)
  {
    var snapshot := frames;
    r := frames;
    var i := 0;
    assert Cycle(frames, 1) == frames;
    while i < count - 1
      invariant 0 <= i <= if count >= 1 then count - 1 else 0
      invariant r == Cycle(frames, i + 1)
      invariant r[..|frames|] == frames
    {
      var next := r + snapshot;
      assert next[..|frames|] == r[..|frames|];
      r := next;
      i := i + 1;
    }
    CycleLength(frames, i + 1);
    forall j | 0 <= j < |r|
      ensures |frames| > 0 && r[j] == frames[j % |frames|]
    {
      CycleAt(frames, i + 1, j);
    }
  }
}
