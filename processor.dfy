/**
 * `BaseProcessor` (processor.go:32-46, 85-180, 216-307): the per-session
 * state of the spider and the entry points the proxy calls when it intercepts
 * a listing page, an article page or an article's metrics.
 *
 * The HTTP exchange is not modelled: an intercepted request is a `Request`
 * record, a response is its body, the pages the pagination loop would fetch
 * are a finite sequence of `Fetch` values, and the JSON decoding of a
 * metrics body is an optional decoded record handed in by the caller.
 */
module Processor {
  import opened Wrappers
  import opened Text
  import opened Replacer
  import opened Patterns
  import opened Lines
  import opened Query
  import opened Paging

  /** The three values of `Type`. */
  const TypeList: string := "list"
  const TypeDetail: string := "detail"
  const TypeMetric: string := "metric"

  /** A parsed URL: its text (`URL.String()`) and its query. */
  datatype Url = Url(text: string, query: Values)

  /** The parts of an intercepted request the processor reads. `referer` is
      `None` when the header is missing or does not parse as a URL. */
  datatype Request = Request(url: Url, referer: Option<Url>)

  /** `MsgStat`: the counters of an article. */
  datatype MsgStat = MsgStat(readNum: int, likeNum: int, realReadNum: int)

  /** `DetailResult`: an article's id, URL, body and, for metrics, its counters. */
  datatype DetailResult = DetailResult(id: string, url: string, data: string, appmsgstat: Option<MsgStat>)

  /** The zero `DetailResult`, which is what a failed JSON decode leaves. */
  const EmptyDetail: DetailResult := DetailResult("", "", "", None)

  /** The errors the listing entry point reports (the stack-trace messages). */
  datatype ProcessError =
    | FailedParseMain     // no payload line
    | FailedFindUrl       // the payload has no URL match
    | FailedFindId        // the payload has no id match
    | FailedPageResponse  // the HTTP client failed while fetching a next page

  // ---------------------------------------------------------------------
  // processMain as a function of the body and the fields it reads
  // ---------------------------------------------------------------------

  /** What `processMain` leaves: its error, the paging cursor and the token. */
  datatype MainOutcome = MainOutcome(err: Option<ProcessError>, cursor: Cursor, token: string)

  /** The token line's quoted text replaces the token when there is one. */
  function NewToken(tokenLine: string, token: string): string {
    if tokenLine != "" && TokenMatch(tokenLine).Some? then TokenMatch(tokenLine).value else token
  }

  /** What the extraction half of `processMain` leaves: its error and the cursor. */
  datatype Extracted = Extracted(err: Option<ProcessError>, cursor: Cursor)

  /** processor.go:247-266: normalise the payload, then keep its URLs and, if
      it also has ids, the last id and the offset advanced by the number of
      ids plus one. The links are empty when there is no payload or no URL and
      are kept even when no id is found. */
  function Extract(payload: string, offset: int, lastId: string): Extracted {
    if payload == "" then Extracted(Some(FailedParseMain), Cursor(offset, lastId, []))
    else Harvest(Normalize(payload), offset, lastId)
  }

  /** processor.go:251-266: the matching on the normalised payload. */
  function Harvest(text: string, offset: int, lastId: string): Extracted {
    var urls := UrlMatches(text);
    if |urls| < 1 then Extracted(Some(FailedFindUrl), Cursor(offset, lastId, []))
    else
      var ids := IdMatches(text);
      if |ids| < 1 then Extracted(Some(FailedFindId), Cursor(offset, lastId, Results(urls)))
      else Extracted(None, Cursor(offset + |ids| + 1, ids[|ids| - 1], Results(urls)))
  }

  /** processor.go:216-268: select the payload and token lines, take the
      token, then extract from the payload. */
  function Main(data: string, offset: int, lastId: string, token: string): MainOutcome {
    var sel := SelectPayload(data);
    var e := Extract(sel.payload, offset, lastId);
    MainOutcome(e.err, e.cursor, NewToken(sel.tokenLine, token))
  }

  /** A newline-terminated line holds no other newline. */
  lemma TerminatedLineIsSingle(data: string, k: nat)
    requires k < |TerminatedLines(data)|
    ensures SingleLine(TerminatedLines(data)[k])
  {
    var line := TerminatedLines(data)[k];
    forall i | 0 <= i < |line| - 1
      ensures line[i] != '\n'
    {
      assert line[i] in line[..|line| - 1];
    }
  }

  /** The token line `processMain` selects is empty or a single line. */
  lemma TokenLineIsSingle(data: string)
    ensures SingleLine(SelectPayload(data).tokenLine)
  {
    SelectPayloadByLines(data);
    var lines := TerminatedLines(data);
    if !Contains(ReadLine(data, 0).line, GeneralMarker) {
      var m := FirstWith(lines, MsgListMarker);
      var t := LastWithin(lines, if m.Some? then m.value + 1 else |lines|, TokenMarker);
      if t.Some? {
        TerminatedLineIsSingle(data, t.value);
      }
    }
  }

  /** The new token is the text between the first and last double quote of
      the selected token line; without a pair of quotes on it the token keeps
      its old value. */
  lemma MainToken(data: string, token: string)
    ensures var line := SelectPayload(data).tokenLine;
      && TokenSpec(line, TokenMatch(line))
      && (TokenMatch(line).Some? ==> NewToken(line, token) == TokenMatch(line).value)
      && ('"' !in line ==> NewToken(line, token) == token)
  {
    var line := SelectPayload(data).tokenLine;
    TokenLineIsSingle(data);
    TokenBetweenQuotes(line);
    if '"' !in line {
      NoQuoteNoToken(line);
    }
  }

  /** Whatever the payload, the extraction keeps the session's invariants:
      every link is a URL match with no `mid`; on success the cursor is the
      last id match, a non-empty digit string, and the offset has grown by the
      number of id matches plus one; on failure the offset and cursor are
      untouched and the links are empty unless only the ids were missing. */
  lemma ExtractKeeps(payload: string, offset: int, lastId: string)
    ensures var e := Extract(payload, offset, lastId);
      && WellFormedResults(e.cursor.results)
      && (e.err.None? ==> e.cursor.lastId != "" && AllDigits(e.cursor.lastId) && e.cursor.offset >= offset + 2)
      && (e.err.None? ==> var ids := IdMatches(Normalize(payload));
            ids != [] && e.cursor.lastId == ids[|ids| - 1] && e.cursor.offset == offset + |ids| + 1)
      && (e.err.Some? ==> e.cursor.offset == offset && e.cursor.lastId == lastId)
      && (e.err.Some? && e.err != Some(FailedFindId) ==> e.cursor.results == [])
      && (e.err.None? || e.err == Some(FailedFindId) ==> e.cursor.results != [])
  {
    if payload != "" {
      var text := Normalize(payload);
      var urls := UrlMatches(text);
      AppendResults([], urls);
      assert [] + Results(urls) == Results(urls);
    }
    if Extract(payload, offset, lastId).err.None? {
      ExtractSucceeds(payload, offset, lastId);
    }
  }

  /** A successful extraction sets the cursor to the last id match, a
      non-empty digit string, and grows the offset by the matches plus one. */
  lemma ExtractSucceeds(payload: string, offset: int, lastId: string)
    requires Extract(payload, offset, lastId).err.None?
    ensures var e := Extract(payload, offset, lastId);
      var ids := IdMatches(Normalize(payload));
      && ids != [] && e.cursor.lastId == ids[|ids| - 1] && e.cursor.offset == offset + |ids| + 1
      && e.cursor.lastId != "" && AllDigits(e.cursor.lastId)
  {
    HarvestSucceeds(Normalize(payload), offset, lastId);
  }

  /** `ExtractSucceeds` on the normalised text. */
  lemma HarvestSucceeds(text: string, offset: int, lastId: string)
    requires Harvest(text, offset, lastId).err.None?
    ensures var e := Harvest(text, offset, lastId);
      var ids := IdMatches(text);
      && ids != [] && e.cursor.lastId == ids[|ids| - 1] && e.cursor.offset == offset + |ids| + 1
      && e.cursor.lastId != "" && AllDigits(e.cursor.lastId)
  {
    var ids := IdMatches(text);
    assert |ids| >= 1;
    var last := ids[|ids| - 1];
    assert last != [] && AllDigits(last);
  }

  /** The links `processMain` keeps are the URL matches of the normalised
      payload, in document order: the first is the maximal match at the
      leftmost position where the URL pattern occurs, and the rest are the
      matches of the text after it. */
  lemma MainLinks(data: string, offset: int, lastId: string, token: string)
    requires Main(data, offset, lastId, token).cursor.results != []
    ensures var text := Normalize(SelectPayload(data).payload);
      var rs := Main(data, offset, lastId, token).cursor.results;
      && SelectPayload(data).payload != ""
      && |rs| == |UrlMatches(text)|
      && (forall k :: 0 <= k < |rs| ==> rs[k] == UrlResult("", UrlMatches(text)[k]))
      && Leftmost(UrlPrefix, text).Some?
      && SplitAt(UrlPrefix, text, Leftmost(UrlPrefix, text).value)
  {
    var text := Normalize(SelectPayload(data).payload);
    var rs := Main(data, offset, lastId, token).cursor.results;
    assert rs == Results(UrlMatches(text));
    UrlMatchesLeftmost(text);
  }

  // ---------------------------------------------------------------------
  // The processor
  // ---------------------------------------------------------------------

  /** The next-page requests for the given offsets, in order. */
  function PageRequests(q: Values, offsets: seq<int>, token: string): seq<PageUrl> {
    if offsets == [] then []
    else [GenPageUrl(q, offsets[0], token)] + PageRequests(q, offsets[1..], token)
  }

  lemma {:induction false} PageRequestsSnoc(q: Values, offsets: seq<int>, o: int, token: string)
    ensures PageRequests(q, offsets + [o], token) == PageRequests(q, offsets, token) + [GenPageUrl(q, o, token)]
    decreases |offsets|
  {
    if offsets != [] {
      PageRequestsSnoc(q, offsets[1..], o, token);
      assert (offsets + [o])[1..] == offsets[1..] + [o];
    }
  }

  /** The k-th request asks for the page at the k-th offset. */
  lemma {:induction false} PageRequestsAt(q: Values, offsets: seq<int>, token: string)
    ensures |PageRequests(q, offsets, token)| == |offsets|
    ensures forall k :: 0 <= k < |offsets| ==> PageRequests(q, offsets, token)[k] == GenPageUrl(q, offsets[k], token)
    decreases |offsets|
  {
    if offsets != [] {
      PageRequestsAt(q, offsets[1..], token);
    }
  }

  /** The `for ... range` loops that wrap each URL match in a link record. */
  method WrapUrls(urls: seq<string>) returns (rs: seq<UrlResult>)
    ensures rs == Results(urls)
  {
    rs := [];
    for i := 0 to |urls|
      invariant |rs| == i
      invariant forall k :: 0 <= k < i ==> rs[k] == UrlResult("", urls[k])
    {
      rs := rs + [UrlResult("", urls[i])];
    }
  }

  /** The line reading of `processMain` (processor.go:218-237): the first line
      is the payload when it names `general_msg_list`; otherwise read
      newline-terminated lines, remembering the last token line, until one
      holds `msgList = `. */
  method SelectLines(data: string) returns (payload: string, tokenLine: string)
    ensures Selection(payload, tokenLine) == SelectPayload(data)
  {
    var first := ReadLine(data, 0);
    payload := "";
    tokenLine := "";
    if Contains(first.line, GeneralMarker) {
      payload := first.line;
      return;
    }
    var pos := 0;
    var str := first;
    while str.ok
      invariant pos <= |data| && str == ReadLine(data, pos)
      invariant payload == ""
      invariant ScanFrom(data, pos, tokenLine) == SelectPayload(data)
      decreases |data| - pos
    {
      if Contains(str.line, TokenMarker) {
        tokenLine := str.line;
      }
      if Contains(str.line, MsgListMarker) {
        payload := str.line;
        return;
      }
      pos := str.next;
      str := ReadLine(data, pos);
    }
  }

  class BaseProcessor {
    var req: Option<Request>
    var lastId: string
    var offset: int
    var data: string
    var urlResults: seq<UrlResult>
    var detailResult: Option<DetailResult>
    var historyUrl: string
    var biz: string
    var token: string
    /** The index of the article page being visited. */
    var currentIndex: int
    var Type: string
    /** `hashKey`: the MD5 hex digest of a string, which this model does not compute. */
    const hashKey: string -> string

    /** What every entry point preserves. */
    predicate Valid()
      reads this
    {
      && offset >= 0
      && currentIndex >= -1
      && AllDigits(lastId)
      && WellFormedResults(urlResults)
      && (Type == "" || Type == TypeList || Type == TypeDetail || Type == TypeMetric)
    }

    /** The paging fields as a cursor. */
    function Position(): Cursor
      reads this
    {
      Cursor(offset, lastId, urlResults)
    }

    /** `NewBaseProcessor`: every field at its zero value. */
    constructor(hashKey: string -> string)
      ensures Valid() && this.hashKey == hashKey
      ensures req == None && lastId == "" && offset == 0 && data == "" && urlResults == []
      ensures detailResult == None && historyUrl == "" && biz == "" && token == ""
      ensures currentIndex == 0 && Type == ""
    {
      this.hashKey := hashKey;
      req := None;
      lastId := "";
      offset := 0;
      data := "";
      urlResults := [];
      detailResult := None;
      historyUrl := "";
      biz := "";
      token := "";
      currentIndex := 0;
      Type := "";
    }

    /** `init` (processor.go:89-97): remember the request and body, reset the
        article index, and record the account and the listing URL. The offset
        and the cursor are not reset. */
    method Init(r: Request, body: string)
      requires Valid()
      modifies this`req, this`data, this`currentIndex, this`biz, this`historyUrl
      ensures Valid()
      ensures req == Some(r) && data == body && currentIndex == -1
      ensures biz == Get(r.url.query, "__biz") && historyUrl == r.url.text
    {
      req := Some(r);
      data := body;
      currentIndex := -1;
      biz := Get(r.url.query, "__biz");
      historyUrl := r.url.text;
    }

    /** `processMain` (processor.go:216-268): reset the links, select the
        payload and token lines, take the token, then extract from the payload. */
    method ProcessMain() returns (err: Option<ProcessError>)
      requires Valid()
      modifies this`urlResults, this`token, this`lastId, this`offset
      ensures Valid()
      ensures var m := Main(data, old(offset), old(lastId), old(token));
        err == m.err && Position() == m.cursor && token == m.token
    {
      urlResults := [];
      var msgs, tokenLine := SelectLines(data);
      if tokenLine != "" {
        var t := TokenMatch(tokenLine);
        if t.Some? {
          token := t.value;
        }
      }
      err := ExtractPayload(msgs);
    }

    /** The second half of `processMain` (processor.go:247-266): fail without
        a payload; normalise it; fail without a URL; keep the URLs; fail
        without an id; otherwise move the cursor to the last id and advance
        the offset by the number of ids plus one. */
    method ExtractPayload(msgs: string) returns (err: Option<ProcessError>)
      requires Valid() && urlResults == []
      modifies this`lastId, this`offset, this`urlResults
      ensures Valid()
      ensures Extracted(err, Position()) == Extract(msgs, old(offset), old(lastId))
    {
      ghost var e := Extract(msgs, offset, lastId);
      if msgs == "" {
        err := Some(FailedParseMain);
      } else {
        var text := Normalize(msgs);
        var urls := UrlMatches(text);
        if |urls| < 1 {
          err := Some(FailedFindUrl);
        } else {
          urlResults := WrapUrls(urls);
          var ids := IdMatches(text);
          if |ids| < 1 {
            err := Some(FailedFindId);
          } else {
            lastId := ids[|ids| - 1];
            offset := offset + |ids| + 1;
            err := None;
          }
        }
      }
      assert Extracted(err, Position()) == e;
      ExtractKeeps(msgs, old(offset), old(lastId));
    }

    /** `processPages` (processor.go:270-307) over the replies its requests
        get, one loop iteration per recursive call of the source: ask for the
        page at the current offset, stop on a transport failure or an empty
        page, otherwise move the cursor, append the page's links and fetch the
        next page. The requests it makes are returned. */
    method ProcessPages(pages: seq<Fetch>) returns (requests: seq<PageUrl>, stop: Stop)
      requires Valid() && req.Some?
      modifies this`lastId, this`offset, this`urlResults
      ensures Valid()
      ensures var s := Scroll(ReadPage, pages, old(Position()));
        && Position() == s.cursor && stop == s.stop
        && requests == PageRequests(old(req.value.url.query), s.offsets, old(token))
    {
      var q, t := req.value.url.query, token;
      ghost var start := Position();
      ghost var asked: seq<int> := [];
      requests := [];
      stop := RepliesExhausted;
      var i := 0;
      ResumesStart(ReadPage, pages, start);
      while i < |pages|
        invariant 0 <= i <= |pages| && Valid()
        invariant Resumes(ReadPage, pages, start, i, Position(), asked)
        invariant requests == PageRequests(q, asked, t)
        decreases |pages| - i
      {
        ghost var before := Position();
        ghost var askedBefore := asked;
        var url := GenPageUrl(q, offset, t);
        requests := requests + [url];
        asked := asked + [offset];
        PageRequestsSnoc(q, askedBefore, before.offset, t);
        var halt := VisitPage(pages[i]);
        if halt.Some? {
          stop := halt.value;
          ResumesHalt(ReadPage, pages, start, i, before, askedBefore);
          return;
        }
        ResumesStep(ReadPage, pages, start, i, before, askedBefore);
        i := i + 1;
      }
      ResumesEnd(ReadPage, pages, start, Position(), asked);
    }

    /** One reply of `processPages`: a transport failure stops the loop with
        an error, a page without links or ids stops it cleanly, and any other
        page is taken. */
    method VisitPage(f: Fetch) returns (halt: Option<Stop>)
      requires Valid()
      modifies this`lastId, this`offset, this`urlResults
      ensures Valid()
      ensures Visited(halt, Position()) == Visit(ReadPage, f, old(Position()))
      ensures halt.None? ==> lastId != ""
    {
      match f
      case TransportFailure =>
        halt := Some(TransportFailed);
      case Page(body) =>
        var taken := TakePage(body);
        // The next page is fetched only when the cursor is set (processor.go:302),
        // which a taken page always leaves it.
        halt := if taken && lastId != "" then None else Some(EmptyPage);
    }

    /** One page of `processPages` (processor.go:287-301): normalise the body
        and find its URLs and ids; without either, leave the state alone;
        otherwise move the cursor to the last id, advance the offset by the
        number of ids plus one and append the page's links. */
    method TakePage(body: string) returns (taken: bool)
      requires Valid()
      modifies this`lastId, this`offset, this`urlResults
      ensures Valid()
      ensures var page := ReadPage(body);
        && taken == page.Some?
        && Position() == (if taken then Step(old(Position()), page.value) else old(Position()))
      ensures taken ==> lastId != ""
    {
      var page := ReadPage(body);
      taken := page.Some?;
      if taken {
        Advance(page.value);
      }
    }

    /** processor.go:296-301: move the cursor to the page's last id, advance
        the offset by the number of ids plus one and append the page's links. */
    method Advance(h: PageMatches)
      requires Valid() && SoundMatches(h)
      modifies this`lastId, this`offset, this`urlResults
      ensures Valid()
      ensures Position() == Step(old(Position()), h) && lastId != ""
    {
      var added := WrapUrls(h.urls);
      AppendResults(urlResults, h.urls);
      var last := h.ids[|h.ids| - 1];
      assert last != [] && AllDigits(last);
      assert Cursor(offset + |h.ids| + 1, last, urlResults + added) == Step(Position(), h);
      lastId, offset, urlResults := last, offset + |h.ids| + 1, urlResults + added;
    }

    /** `ProcessList` (processor.go:98-124): initialise from the listing
        request, run `processMain` and, when auto-scrolling is on and it
        succeeded, page through the rest of the history. The body is returned
        unchanged. */
    method ProcessList(r: Request, body: string, autoScroll: bool, pages: seq<Fetch>)
      returns (out: string, err: Option<ProcessError>, requests: seq<PageUrl>)
      requires Valid()
      modifies this`Type, this`req, this`data, this`currentIndex, this`biz, this`historyUrl
      modifies this`urlResults, this`token, this`lastId, this`offset
      ensures Valid()
      ensures out == body && Type == TypeList && req == Some(r) && data == body && currentIndex == -1
      ensures historyUrl == r.url.text && biz == Get(r.url.query, "__biz")
      ensures var m := Main(body, old(offset), old(lastId), old(token));
        && token == m.token
        && (m.err.Some? || !autoScroll ==> err == m.err && Position() == m.cursor && requests == [])
        && (m.err.None? && autoScroll ==>
              var s := Scroll(ReadPage, pages, m.cursor);
              && Position() == s.cursor
              && requests == PageRequests(r.url.query, s.offsets, m.token)
              && err == (if s.stop == TransportFailed then Some(FailedPageResponse) else None))
    {
      Type := TypeList;
      out := body;
      Init(r, body);
      err, requests := MainThenPages(autoScroll, pages);
    }

    /** The part of `ProcessList` after initialisation (processor.go:112-123):
        `processMain`, then, when it succeeded and auto-scrolling is on,
        `processPages`; a failed page response is reported as an error. */
    method MainThenPages(autoScroll: bool, pages: seq<Fetch>)
      returns (err: Option<ProcessError>, requests: seq<PageUrl>)
      requires Valid() && req.Some?
      modifies this`urlResults, this`token, this`lastId, this`offset
      ensures Valid()
      ensures var m := Main(data, old(offset), old(lastId), old(token));
        && token == m.token
        && (m.err.Some? || !autoScroll ==> err == m.err && Position() == m.cursor && requests == [])
        && (m.err.None? && autoScroll ==>
              var s := Scroll(ReadPage, pages, m.cursor);
              && Position() == s.cursor
              && requests == PageRequests(req.value.url.query, s.offsets, m.token)
              && err == (if s.stop == TransportFailed then Some(FailedPageResponse) else None))
    {
      requests := [];
      err := ProcessMain();
      if err.Some? || !autoScroll {
        return;
      }
      var stop;
      requests, stop := ProcessPages(pages);
      if stop == TransportFailed {
        err := Some(FailedPageResponse);
      }
    }

    /** `ProcessDetail` (processor.go:126-141): record the article page under
        the id of its URL, with no counters, and move to the next article.
        The body is returned unchanged. */
    method ProcessDetail(r: Request, body: string) returns (out: string)
      requires Valid()
      modifies this`Type, this`req, this`currentIndex, this`detailResult
      ensures Valid()
      ensures out == body && Type == TypeDetail && req == Some(r)
      ensures currentIndex == old(currentIndex) + 1
      ensures detailResult == Some(DetailResult(GenId(hashKey, r.url.query), r.url.text, body, None))
    {
      Type := TypeDetail;
      req := Some(r);
      currentIndex := currentIndex + 1;
      out := body;
      detailResult := Some(DetailResult(GenId(hashKey, r.url.query), r.url.text, body, None));
    }

    /** `ProcessMetrics` (processor.go:143-168): replace the article record by
        the decoded counters, filed under the Referer's URL and id. A body that
        does not decode is not an error: the record is then the zero record
        with only the URL and id set. The body is returned unchanged. */
    method ProcessMetrics(r: Request, body: string, decoded: Option<DetailResult>) returns (out: string)
      requires Valid() && r.referer.Some?
      modifies this`Type, this`req, this`detailResult
      ensures Valid()
      ensures out == body && Type == TypeMetric && req == Some(r)
      ensures var d := decoded.GetOr(EmptyDetail); var ref := r.referer.value;
        detailResult == Some(DetailResult(GenId(hashKey, ref.query), ref.text, d.data, d.appmsgstat))
    {
      Type := TypeMetric;
      req := Some(r);
      out := body;
      var d := decoded.GetOr(EmptyDetail);
      var ref := r.referer.value;
      detailResult := Some(DetailResult(GenId(hashKey, ref.query), ref.text, d.data, d.appmsgstat));
    }

    /** `HistoryUrl`: the listing URL recorded by the last `init`. */
    function HistoryUrl(): (u: string)
      reads this
      ensures u == historyUrl
    {
      historyUrl
    }

    /** `NextBiz`: the base processor never names another account. */
    function NextBiz(currentBiz: string): (next: string)
      ensures next == ""
    {
      ""
    }

    /** `NextUrl`: the base processor never names another article. */
    function NextUrl(currentUrl: string): (next: string)
      ensures next == ""
    {
      ""
    }
  }
}
