/**
 * The pagination loop of processor.go:270-307 as a specification over a
 * finite sequence of fetched pages. Each fetch is either a page body or a
 * transport failure; the processor class runs the loop imperatively and is
 * proved to end where `Scroll` ends.
 */
module Paging {
  import opened Wrappers
  import opened Text
  import opened Replacer
  import opened Patterns

  /** One harvested article link (`UrlResult`); `mid` is never filled in. */
  datatype UrlResult = UrlResult(mid: string, url: string)

  /** The link records built from URL matches, one per match, in order. */
  function Results(urls: seq<string>): (r: seq<UrlResult>)
    ensures |r| == |urls|
    ensures forall k :: 0 <= k < |r| ==> r[k] == UrlResult("", urls[k])
  {
    seq(|urls|, k requires 0 <= k < |urls| => UrlResult("", urls[k]))
  }

  /** Records the listing keeps: links with no `mid` whose URL the URL pattern matches. */
  predicate WellFormedResults(rs: seq<UrlResult>) {
    forall k :: 0 <= k < |rs| ==> rs[k].mid == "" && IsUrl(rs[k].url)
  }

  /** Appending the records of URL matches keeps the listing well formed. */
  lemma AppendResults(rs: seq<UrlResult>, urls: seq<string>)
    requires WellFormedResults(rs) && forall k :: 0 <= k < |urls| ==> IsUrl(urls[k])
    ensures WellFormedResults(rs + Results(urls))
    ensures (rs + Results(urls))[..|rs|] == rs
  {
    var all := rs + Results(urls);
    forall k | 0 <= k < |all|
      ensures all[k].mid == "" && IsUrl(all[k].url)
    {
      if k >= |rs| {
        assert all[k] == Results(urls)[k - |rs|];
      }
    }
  }

  /** What one fetch produced: a body, or an error from the HTTP client. */
  datatype Fetch = Page(body: string) | TransportFailure

  /** The URL and id matches of a page. */
  datatype Harvest = Harvest(urls: seq<string>, ids: seq<string>)

  /** The matches of a page that carries both URLs and ids. */
  type PageMatches = h: Harvest | h.urls != [] && h.ids != [] witness Harvest([""], [""])

  /** processor.go:287-295: normalise the body, then find URLs and ids; a page
      without a URL or without an id yields nothing. */
  function ReadPage(body: string): (r: Option<PageMatches>)
    ensures r.Some? ==> r.value.urls != [] && r.value.ids != []
    ensures r.Some? ==> forall k :: 0 <= k < |r.value.urls| ==> IsUrl(r.value.urls[k])
    ensures r.Some? ==> forall k :: 0 <= k < |r.value.ids| ==> r.value.ids[k] != [] && AllDigits(r.value.ids[k])
  {
    var text := Normalize(body);
    var urls := UrlMatches(text);
    if |urls| < 1 then None
    else
      var ids := IdMatches(text);
      if |ids| < 1 then None else Some(Harvest(urls, ids))
  }

  /** A page is turned away exactly when the URL pattern or the id pattern
      starts at no position of its normalised body. */
  lemma ReadPageAccepts(body: string)
    ensures var text := Normalize(body);
      ReadPage(body).Some? <==>
        (exists i :: 0 <= i <= |text| && PatternPrefix(UrlPrefix, text[i..])) &&
        (exists i :: 0 <= i <= |text| && IdAt(text[i..]))
  {
    var text := Normalize(body);
    UrlMatchesEmptyIff(text);
    IdMatchesEmptyIff(text);
  }

  /** What the loop relies on of the page reader: every URL of a page it
      accepts is a URL match and every id a non-empty digit string. */
  ghost predicate Sound(read: string -> Option<PageMatches>) {
    forall body :: read(body).Some? ==> SoundMatches(read(body).value)
  }

  /** Every URL is a URL match and every id a non-empty digit string. */
  predicate SoundMatches(h: PageMatches) {
    && (forall k :: 0 <= k < |h.urls| ==> IsUrl(h.urls[k]))
    && (forall k :: 0 <= k < |h.ids| ==> h.ids[k] != [] && AllDigits(h.ids[k]))
  }

  /** The program's page reader is sound. */
  lemma ReadPageSound()
    ensures Sound(ReadPage)
  {
  }

  /** The fields one page updates: `offset`, `lastId` and `urlResults`. */
  datatype Cursor = Cursor(offset: int, lastId: string, results: seq<UrlResult>)

  /** processor.go:296-301: the last id becomes the cursor, the offset grows by
      the number of ids plus one, and the page's links are appended. */
  function Step(c: Cursor, h: PageMatches): Cursor {
    Cursor(c.offset + |h.ids| + 1, h.ids[|h.ids| - 1], c.results + Results(h.urls))
  }

  /** Why the loop stopped. `RepliesExhausted` means the sequence of replies
      given to the model ran out while the program would still be fetching. */
  datatype Stop = EmptyPage | TransportFailed | RepliesExhausted

  /** The end state, the reason for stopping, and the offset each request asked for. */
  datatype Scrolled = Scrolled(cursor: Cursor, stop: Stop, offsets: seq<int>)

  /** processor.go:270-307: request the page at the current offset; stop on a
      transport failure (an error) or on an empty page (a clean stop, since the
      error propagated there is nil), otherwise step and fetch the next page. */
  function Scroll(read: string -> Option<PageMatches>, pages: seq<Fetch>, c: Cursor): Scrolled
    decreases |pages|
  {
    if pages == [] then Scrolled(c, RepliesExhausted, [])
    else
      var v := Visit(read, pages[0], c);
      if v.halt.Some? then Scrolled(c, v.halt.value, [c.offset])
      else
        var r := Scroll(read, pages[1..], v.cursor);
        Scrolled(r.cursor, r.stop, [c.offset] + r.offsets)
  }

  /** What one reply does: the reason the loop stops there, if it does, and
      the cursor after it. */
  datatype Visited = Visited(halt: Option<Stop>, cursor: Cursor)

  /** processor.go:281-305 for one reply: a transport failure stops with an
      error, a page without URLs or ids stops cleanly, any other page steps. */
  function Visit(read: string -> Option<PageMatches>, f: Fetch, c: Cursor): Visited {
    if f.TransportFailure? then Visited(Some(TransportFailed), c)
    else match read(f.body)
      case None => Visited(Some(EmptyPage), c)
      case Some(h) => Visited(None, Step(c, h))
  }

  /** `Scroll` from the `i`-th reply on: one step of the loop. */
  lemma ScrollAt(read: string -> Option<PageMatches>, pages: seq<Fetch>, i: nat, c: Cursor)
    requires i < |pages|
    ensures var v := Visit(read, pages[i], c);
      Scroll(read, pages[i..], c) ==
        if v.halt.Some? then Scrolled(c, v.halt.value, [c.offset])
        else
          var r := Scroll(read, pages[i + 1..], v.cursor);
          Scrolled(r.cursor, r.stop, [c.offset] + r.offsets)
  {
    assert pages[i..][0] == pages[i];
    assert pages[i..][1..] == pages[i + 1..];
  }

  /** After `i` replies the loop is at `c` having asked for `asked`, and
      finishing the remaining replies from there ends where `Scroll` from the
      start ends: the invariant of the imperative loop. */
  ghost predicate Resumes(read: string -> Option<PageMatches>, pages: seq<Fetch>, start: Cursor,
                          i: nat, c: Cursor, asked: seq<int>)
    requires i <= |pages|
  {
    var r := Scroll(read, pages[i..], c);
    Scroll(read, pages, start) == Scrolled(r.cursor, r.stop, asked + r.offsets)
  }

  /** Before any reply the loop resumes the whole scroll. */
  lemma ResumesStart(read: string -> Option<PageMatches>, pages: seq<Fetch>, start: Cursor)
    ensures Resumes(read, pages, start, 0, start, [])
  {
    assert pages[0..] == pages;
  }

  /** A reply that does not stop the loop keeps the invariant one reply later. */
  lemma ResumesStep(read: string -> Option<PageMatches>, pages: seq<Fetch>, start: Cursor,
                    i: nat, c: Cursor, asked: seq<int>)
    requires i < |pages| && Resumes(read, pages, start, i, c, asked)
    requires Visit(read, pages[i], c).halt.None?
    ensures Resumes(read, pages, start, i + 1, Visit(read, pages[i], c).cursor, asked + [c.offset])
  {
    ScrollAt(read, pages, i, c);
    var r := Scroll(read, pages[i + 1..], Visit(read, pages[i], c).cursor);
    assert asked + [c.offset] + r.offsets == asked + ([c.offset] + r.offsets);
  }

  /** A reply that stops the loop ends it where `Scroll` ends. */
  lemma ResumesHalt(read: string -> Option<PageMatches>, pages: seq<Fetch>, start: Cursor,
                    i: nat, c: Cursor, asked: seq<int>)
    requires i < |pages| && Resumes(read, pages, start, i, c, asked)
    requires Visit(read, pages[i], c).halt.Some?
    ensures Scroll(read, pages, start) == Scrolled(c, Visit(read, pages[i], c).halt.value, asked + [c.offset])
  {
    ScrollAt(read, pages, i, c);
  }

  /** When the replies run out, the loop ends where `Scroll` ends. */
  lemma ResumesEnd(read: string -> Option<PageMatches>, pages: seq<Fetch>, start: Cursor,
                   c: Cursor, asked: seq<int>)
    requires Resumes(read, pages, start, |pages|, c, asked)
    ensures Scroll(read, pages, start) == Scrolled(c, RepliesExhausted, asked)
  {
    assert pages[|pages|..] == [];
    assert asked + [] == asked;
  }

  /** A fetch that ends the loop. */
  predicate Stops(read: string -> Option<PageMatches>, f: Fetch) {
    f.TransportFailure? || read(f.body).None?
  }

  /** The number of pages fetched successfully before the first stopper. */
  function Successes(read: string -> Option<PageMatches>, pages: seq<Fetch>): (n: nat)
    ensures n <= |pages|
    ensures forall k :: 0 <= k < n ==> !Stops(read, pages[k])
    ensures n < |pages| ==> Stops(read, pages[n])
  {
    if pages == [] || Stops(read, pages[0]) then 0 else 1 + Successes(read, pages[1..])
  }

  /** How much a successful page advances the offset. */
  function Gain(read: string -> Option<PageMatches>, f: Fetch): nat
    requires !Stops(read, f)
  {
    |read(f.body).value.ids| + 1
  }

  /** The total advance of a run of successful pages: the sum of (ids + 1). */
  function Growth(read: string -> Option<PageMatches>, fs: seq<Fetch>): nat
    requires forall k :: 0 <= k < |fs| ==> !Stops(read, fs[k])
  {
    if fs == [] then 0 else Gain(read, fs[0]) + Growth(read, fs[1..])
  }

  /** Two successful pages with `k1` and `k2` ids advance the offset by `k1 + k2 + 2`. */
  lemma GrowthOfTwo(read: string -> Option<PageMatches>, f1: Fetch, f2: Fetch)
    requires !Stops(read, f1) && !Stops(read, f2)
    ensures Growth(read, [f1, f2]) == |read(f1.body).value.ids| + |read(f2.body).value.ids| + 2
  {
    assert [f1, f2][1..] == [f2];
    assert [f2][1..] == [];
    assert Growth(read, [f2]) == Gain(read, f2) + Growth(read, []);
  }

  /** Every page advances the offset by at least two. */
  lemma {:induction false} GrowthAtLeast(read: string -> Option<PageMatches>, fs: seq<Fetch>)
    requires forall k :: 0 <= k < |fs| ==> !Stops(read, fs[k])
    ensures Growth(read, fs) >= 2 * |fs|
    decreases |fs|
  {
    if fs != [] {
      GrowthAtLeast(read, fs[1..]);
    }
  }

  /** The loop ends on the first page that stops it, and only there: it runs
      out of replies exactly when no page stops it, it makes one request per
      page up to and including the stopper, and it reports a transport failure
      exactly when the stopper is one. */
  lemma {:induction false} ScrollStops(read: string -> Option<PageMatches>, pages: seq<Fetch>, c: Cursor)
    requires Sound(read)
    ensures var r := Scroll(read, pages, c); var n := Successes(read, pages);
      && (r.stop == RepliesExhausted <==> n == |pages|)
      && (r.stop == TransportFailed <==> n < |pages| && pages[n].TransportFailure?)
      && |r.offsets| == (if n < |pages| then n + 1 else n)
    decreases |pages|
  {
    if pages != [] && !Stops(read, pages[0]) {
      ScrollStops(read, pages[1..], Step(c, read(pages[0].body).value));
    }
  }

  /** The offset after the loop is the starting offset plus the sum of
      (ids + 1) over the successful pages. */
  lemma {:induction false} ScrollOffset(read: string -> Option<PageMatches>, pages: seq<Fetch>, c: Cursor)
    ensures Scroll(read, pages, c).cursor.offset == c.offset + Growth(read, pages[..Successes(read, pages)])
    decreases |pages|
  {
    var n := Successes(read, pages);
    assert pages[..0] == [];
    if pages != [] && !Stops(read, pages[0]) {
      var c' := Step(c, read(pages[0].body).value);
      ScrollOffset(read, pages[1..], c');
      assert pages[..n][1..] == pages[1..][..n - 1];
    }
  }

  /** The k-th request of the loop asks for the offset reached after the first k pages. */
  lemma {:induction false} ScrollOffsetAt(read: string -> Option<PageMatches>, pages: seq<Fetch>, c: Cursor, k: nat)
    requires k < |Scroll(read, pages, c).offsets|
    ensures k <= Successes(read, pages)
    ensures Scroll(read, pages, c).offsets[k] == c.offset + Growth(read, pages[..k])
    decreases k
  {
    assert pages[..0] == [];
    if k > 0 && pages != [] && !Stops(read, pages[0]) {
      var c' := Step(c, read(pages[0].body).value);
      var r' := Scroll(read, pages[1..], c');
      assert Scroll(read, pages, c).offsets == [c.offset] + r'.offsets;
      ScrollOffsetAt(read, pages[1..], c', k - 1);
      assert pages[..k][1..] == pages[1..][..k - 1];
    }
  }

  /** The links found before the loop stay in place; every link the loop adds
      is a URL match; and unless the first page already stops the loop, the
      cursor ends as a non-empty digit string. With no successful page the
      state is untouched. */
  lemma {:induction false} ScrollCursor(read: string -> Option<PageMatches>, pages: seq<Fetch>, c: Cursor)
    requires Sound(read) && WellFormedResults(c.results)
    ensures var r := Scroll(read, pages, c);
      && |c.results| <= |r.cursor.results| && r.cursor.results[..|c.results|] == c.results
      && WellFormedResults(r.cursor.results)
      && (Successes(read, pages) == 0 ==> r.cursor == c)
      && (Successes(read, pages) > 0 ==> r.cursor.lastId != "" && AllDigits(r.cursor.lastId))
    decreases |pages|
  {
    if pages != [] && !Stops(read, pages[0]) {
      var h := read(pages[0].body).value;
      var c' := Step(c, h);
      AppendResults(c.results, h.urls);
      ScrollCursor(read, pages[1..], c');
      var r' := Scroll(read, pages[1..], c');
      assert r'.cursor.results[..|c.results|] == r'.cursor.results[..|c'.results|][..|c.results|];
    }
  }
}
