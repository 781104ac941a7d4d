/**
  The browser's object-URL store, as the run uses it: `URL.createObjectURL`
  hands out a fresh URL for a blob, `URL.revokeObjectURL` releases one.
 */
module ObjectUrls {
  import Decimal
  import Markup

  type Url = string

  /** What a frame URL refers to: the blob read from an engine output file. */
  datatype Blob = FrameBlob(path: string)

  /** The `k`-th URL the store hands out. */
  function BlobUrl(k: nat): (u: Url)
    ensures |u| > 5 && u[..5] == "blob:"
    ensures Markup.NoQuote(u)
  {
    "blob:" + Decimal.Show(k)
  }

  /** Different allocations give different URLs. */
  lemma BlobUrlInjective(j: nat, k: nat)
    requires BlobUrl(j) == BlobUrl(k)
    ensures j == k
  {
    assert Decimal.Show(j) == BlobUrl(j)[5..];
    assert Decimal.Show(k) == BlobUrl(k)[5..];
    Decimal.ShowInjective(j, k);
  }

  /** The URLs of allocations `from`, `from + 1`, ... up to `from + n - 1`. */
  function Allocations(from: nat, n: nat): (us: seq<Url>)
    ensures |us| == n
    ensures forall i :: 0 <= i < n ==> us[i] == BlobUrl(from + i)
  {
    seq(n, i requires 0 <= i < n => BlobUrl(from + i))
  }

  /** No URL is handed out twice. */
  lemma AllocationsDistinct(from: nat, n: nat)
    ensures forall i, j :: 0 <= i < j < n ==> Allocations(from, n)[i] != Allocations(from, n)[j]
  {
    forall i, j | 0 <= i < j < n
      ensures Allocations(from, n)[i] != Allocations(from, n)[j]
    {
      if BlobUrl(from + i) == BlobUrl(from + j) {
        BlobUrlInjective(from + i, from + j);
      }
    }
  }

  ghost predicate IssuedBefore(u: Url, next: nat) {
    exists k :: 0 <= k < next && u == BlobUrl(k)
  }

  class Registry {
    /** Number of URLs handed out so far. */
    var next: nat
    /** URLs not yet revoked, and the blobs they refer to. */
    var live: map<Url, Blob>

    ghost predicate Valid()
      reads this
    {
      forall u :: u in live ==> IssuedBefore(u, next)
    }

    constructor ()
      ensures Valid() && next == 0 && live == map[]
    {
      next := 0;
      live := map[];
    }

    /** `URL.createObjectURL`: a URL never handed out before, now referring to `blob`. */
    method Create(blob: Blob) returns (u: Url)
      requires Valid()
      modifies this
      ensures Valid()
      ensures u == BlobUrl(old(next)) && next == old(next) + 1
      ensures u !in old(live) && live == old(live)[u := blob]
    {
      u := BlobUrl(next);
      if u in live {
        var k :| 0 <= k < next && u == BlobUrl(k);
        BlobUrlInjective(k, next);
        assert false;
      }
      live := live[u := blob];
      next := next + 1;
      forall v | v in live
        ensures IssuedBefore(v, next)
      {
        if v != u {
          var k :| 0 <= k < next - 1 && v == BlobUrl(k);
        }
      }
    }

    /** `URL.revokeObjectURL`: the URL no longer refers to anything. */
    method Revoke(u: Url)
      requires Valid()
      modifies this
      ensures Valid()
      ensures next == old(next) && live == old(live) - {u}
    {
      live := live - {u};
    }
  }
}
