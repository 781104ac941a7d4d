/**
  The printable page: the width of one tile and the body markup, one tile
  per frame URL, in order. The markup is also read back by a parser, which
  shows that the body determines the URL list exactly.
 */
module Markup {
  import opened Wrappers

  /** Page content width, in inches, that a row of tiles shares. */
  const PageWidth: real := 8.2

  /** Width of one tile when `imagesPerRow` tiles share a row. */
  function TileWidth(imagesPerRow: int): (w: real)
    requires imagesPerRow >= 1
    ensures w > 0.0
    ensures w * (imagesPerRow as real) == PageWidth
  {
    PageWidth / (imagesPerRow as real)
  }

  /** Two images per row: each tile is 4.1 inches wide. */
  lemma TwoPerRow()
    ensures TileWidth(2) == 4.1
  {
  }

  /** More images per row means narrower tiles. */
  lemma MoreIsNarrower(m: int, n: int)
    requires 1 <= m < n
    ensures TileWidth(n) < TileWidth(m)
  {
    var wm, wn := TileWidth(m), TileWidth(n);
    assert wn * (n as real) == wm * (m as real);
    assert wm * (m as real) < wm * (n as real);
    if wn >= wm {
      // then wn * n >= wm * n > wm * m == wn * n
      assert false;
    }
  }

  /** The delimiter of the `src` attribute value. */
  const Quote: string := "\""

  /** One hole-punch mark of the binding strip. */
  const Hole: string := "<i class=\"hole\"></i>"

  /** A tile up to the image's `src` value: the outer and inner containers,
      the binding strip with its two holes, and the start of the image. */
  const TileHead: string := "<div class=\"outer-container\">\n              <div class=\"inner-container\">\n                <div class=\"sheet-binding\">\n                  " + Hole + "\n                  " + Hole + "\n                </div>\n                <div class=\"img-container\">\n                  <img src=" + Quote

  /** A tile after the image's `src` value, closing what the head opened. */
  const TileTail: string := Quote + ">\n                </div>\n              </div>\n            </div>"

  /** The (trimmed) markup of one tile: `head`, the image source, `tail`. */
  function Tile(head: string, url: string, tail: string): string {
    head + url + tail
  }

  /** `Array.prototype.join`: the parts with `sep` between neighbours. */
  function Join(parts: seq<string>, sep: string): string {
    if |parts| == 0 then ""
    else if |parts| == 1 then parts[0]
    else parts[0] + sep + Join(parts[1..], sep)
  }

  /** One tile per URL, in order, joined by newlines. */
  function Render(urls: seq<string>, head: string, tail: string): string {
    Join(seq(|urls|, i requires 0 <= i < |urls| => Tile(head, urls[i], tail)), "\n")
  }

  /** The document body that the print layout writes for `urls`. */
  function Body(urls: seq<string>): string {
    Render(urls, TileHead, TileTail)
  }

  predicate NoQuote(s: string) {
    forall i :: 0 <= i < |s| ==> s[i] != '"'
  }

  /** Position of the first double quote in `s`, or `|s|` when there is none. */
  function QuoteIndex(s: string): (i: nat)
    ensures i <= |s| && NoQuote(s[..i])
    ensures i < |s| ==> s[i] == '"'
  {
    if s == [] || s[0] == '"' then 0 else 1 + QuoteIndex(s[1..])
  }

  /** A tail that starts by closing the attribute value. */
  predicate ClosesQuote(tail: string) {
    tail != [] && tail[0] == '"'
  }

  /** Splits off the tile at the start of `s`: its image source and what follows it. */
  function SplitTile(s: string, head: string, tail: string): (r: Option<(string, string)>)
    requires |head| > 0
    ensures r.Some? ==> |r.value.1| < |s|
  {
    if !(head <= s) then None
    else
      var rest := s[|head|..];
      var i := QuoteIndex(rest);
      if !(tail <= rest[i..]) then None
      else Some((rest[..i], rest[i..][|tail|..]))
  }

  /** What `SplitTile` splits off is a whole tile with a quote-free source. */
  lemma SplitTileShape(s: string, head: string, tail: string)
    requires |head| > 0 && SplitTile(s, head, tail).Some?
    ensures var (url, more) := SplitTile(s, head, tail).value;
      NoQuote(url) && s == Tile(head, url, tail) + more
  {
    var rest := s[|head|..];
    var i := QuoteIndex(rest);
    var after := rest[i..];
    PrefixSplit(s, head);
    PrefixSplit(after, tail);
    Reassemble(s, head, rest, rest[..i], after, tail, after[|tail|..]);
  }

  lemma PrefixSplit(s: string, p: string)
    requires p <= s
    ensures s == p + s[|p|..]
  {
    assert s[..|p|] == p;
  }

  lemma Reassemble(s: string, head: string, rest: string, url: string, after: string, tail: string, more: string)
    requires s == head + rest && rest == url + after && after == tail + more
    ensures s == Tile(head, url, tail) + more
  {
    assert s == head + (url + (tail + more));
  }

  /** Reads back a non-empty sequence of newline-separated tiles framed by
      `head` and `tail`, returning the image source of each tile in order. */
  function ParseTiles(s: string, head: string, tail: string): Option<seq<string>>
    requires |head| > 0
    decreases |s|
  {
    match SplitTile(s, head, tail)
    case None => None
    case Some((url, more)) =>
      if more == [] then Some([url])
      else if more[0] != '\n' then None
      else match ParseTiles(more[1..], head, tail)
        case None => None
        case Some(us) => Some([url] + us)
  }

  /** Reads back a body: the URLs of its tiles, in order. */
  function ParseBody(s: string): Option<seq<string>> {
    TileFraming();
    if s == [] then Some([]) else ParseTiles(s, TileHead, TileTail)
  }

  lemma TileFraming()
    ensures |TileHead| > 0 && ClosesQuote(TileTail)
  {
    assert TileTail[0] == Quote[0];
  }

  /** A rendered non-empty list: the first tile, then the rest after a newline. */
  lemma RenderCons(urls: seq<string>, head: string, tail: string)
    requires |urls| >= 1
    ensures |urls| == 1 ==> Render(urls, head, tail) == Tile(head, urls[0], tail)
    ensures |urls| > 1 ==>
      Render(urls, head, tail) == Tile(head, urls[0], tail) + ("\n" + Render(urls[1..], head, tail))
  {
    var tiles := seq(|urls|, i requires 0 <= i < |urls| => Tile(head, urls[i], tail));
    assert tiles[1..] == seq(|urls[1..]|, i requires 0 <= i < |urls[1..]| => Tile(head, urls[1..][i], tail));
  }

  lemma {:induction false} QuoteIndexOfUrl(url: string, tail: string)
    requires NoQuote(url) && ClosesQuote(tail)
    ensures QuoteIndex(url + tail) == |url|
  {
    if url != [] {
      assert (url + tail)[1..] == url[1..] + tail;
      QuoteIndexOfUrl(url[1..], tail);
    }
  }

  /** A tile whose source has no double quote is split off exactly. */
  lemma SplitTileOfTile(head: string, url: string, tail: string, more: string)
    requires |head| > 0 && ClosesQuote(tail) && NoQuote(url)
    ensures SplitTile(Tile(head, url, tail) + more, head, tail) == Some((url, more))
  {
    var s := Tile(head, url, tail) + more;
    assert s == head + (url + (tail + more));
    var rest := s[|head|..];
    assert rest == url + (tail + more);
    QuoteIndexOfUrl(url, tail + more);
    assert rest[..|url|] == url;
    assert rest[|url|..] == tail + more;
    assert (tail + more)[|tail|..] == more;
  }

  /** A tile, a newline and more tiles parse as that tile's source followed by the rest. */
  lemma ParseTilesCons(head: string, url: string, tail: string, r: string)
    requires |head| > 0 && ClosesQuote(tail) && NoQuote(url)
    ensures ParseTiles(Tile(head, url, tail) + ("\n" + r), head, tail) ==
      if ParseTiles(r, head, tail).Some? then Some([url] + ParseTiles(r, head, tail).value) else None
  {
    SplitTileOfTile(head, url, tail, "\n" + r);
    assert ("\n" + r)[1..] == r;
  }

  /** Parsing the rendering of a non-empty quote-free URL list gives back the list. */
  lemma {:induction false} ParseTilesOfRender(urls: seq<string>, head: string, tail: string)
    requires |urls| >= 1 && |head| > 0 && ClosesQuote(tail)
    requires forall k :: 0 <= k < |urls| ==> NoQuote(urls[k])
    ensures ParseTiles(Render(urls, head, tail), head, tail) == Some(urls)
  {
    if |urls| == 1 {
      ParseSingleTile(urls, head, tail);
    } else {
      ParseTilesOfRender(urls[1..], head, tail);
      ParseTileThenRest(urls, head, tail);
    }
  }

  lemma ParseSingleTile(urls: seq<string>, head: string, tail: string)
    requires |urls| == 1 && |head| > 0 && ClosesQuote(tail) && NoQuote(urls[0])
    ensures ParseTiles(Render(urls, head, tail), head, tail) == Some(urls)
  {
    RenderCons(urls, head, tail);
    SplitTileOfTile(head, urls[0], tail, "");
    assert Tile(head, urls[0], tail) + "" == Tile(head, urls[0], tail);
    assert [urls[0]] == urls;
  }

  lemma ParseTileThenRest(urls: seq<string>, head: string, tail: string)
    requires |urls| > 1 && |head| > 0 && ClosesQuote(tail) && NoQuote(urls[0])
    requires ParseTiles(Render(urls[1..], head, tail), head, tail) == Some(urls[1..])
    ensures ParseTiles(Render(urls, head, tail), head, tail) == Some(urls)
  {
    RenderCons(urls, head, tail);
    ParseTilesCons(head, urls[0], tail, Render(urls[1..], head, tail));
    assert [urls[0]] + urls[1..] == urls;
  }

  /** Converse: whatever the tile parser accepts is the rendering of the URLs it returns. */
  lemma {:induction false} RenderOfParseTiles(s: string, head: string, tail: string)
    requires |head| > 0 && ClosesQuote(tail)
    requires ParseTiles(s, head, tail).Some?
    ensures |ParseTiles(s, head, tail).value| >= 1
    ensures Render(ParseTiles(s, head, tail).value, head, tail) == s
  {
    SplitTileShape(s, head, tail);
    var (url, more) := SplitTile(s, head, tail).value;
    if more == [] {
      RenderCons([url], head, tail);
      assert s == Tile(head, url, tail) + [];
    } else {
      RenderOfParseTiles(more[1..], head, tail);
      var us := ParseTiles(more[1..], head, tail).value;
      RenderConsOf(s, head, url, tail, more, us);
    }
  }

  /** A tile, a newline and the rendering of `us` render `[url] + us`. */
  lemma RenderConsOf(s: string, head: string, url: string, tail: string, more: string, us: seq<string>)
    requires s == Tile(head, url, tail) + more && more != [] && more[0] == '\n'
    requires |us| >= 1 && Render(us, head, tail) == more[1..]
    ensures Render([url] + us, head, tail) == s
  {
    RenderCons([url] + us, head, tail);
    assert ([url] + us)[1..] == us;
    assert more == "\n" + more[1..];
  }

  /** Every URL list without double quotes survives rendering: the body holds
      exactly one tile per URL, in the same order, each showing that URL as
      its image source. */
  lemma ParseBodyOfBody(urls: seq<string>)
    requires forall k :: 0 <= k < |urls| ==> NoQuote(urls[k])
    ensures ParseBody(Body(urls)) == Some(urls)
  {
    TileFraming();
    if urls != [] {
      RenderCons(urls, TileHead, TileTail);
      ParseTilesOfRender(urls, TileHead, TileTail);
    }
  }

  /** A string is read as a URL list only when it is the body of that list. */
  lemma BodyOfParseBody(s: string)
    requires ParseBody(s).Some?
    ensures Body(ParseBody(s).value) == s
  {
    TileFraming();
    if s != [] {
      RenderOfParseTiles(s, TileHead, TileTail);
    }
  }
}
