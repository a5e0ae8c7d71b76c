# WeChat spider processor, modelled in Dafny

This project models `BaseProcessor`, the part of the WeChat spider that
inspects responses intercepted by its proxy. It handles three kinds of
response:

- **Listing pages.** It finds the history payload and the session token. It
  normalises the payload and extracts article URLs and message ids. When
  auto-scrolling is on, it keeps requesting the next page of history.
- **Article pages.** It records the page under a content id.
- **Article metrics.** It replaces the record with the decoded counters.

The modules follow the structure of `processor.go`:

| file | module | what it holds |
|---|---|---|
| `wrappers.dfy` | `Wrappers` | `Option` |
| `text.dfy` | `Text` | `strings.Contains`, byte search, `strconv.Itoa` and a reader for its output |
| `replacer.dfy` | `Replacer` | the `strings.NewReplacer` table and its single pass (earliest-listed pattern wins, output never rescanned) |
| `patterns.dfy` | `Patterns` | the URL, id and token regular expressions as leftmost-first, greedy, non-overlapping scanners |
| `lines.dfy` | `Lines` | the `ReadString('\n')` loop that picks the payload line and the token line, plus a line-based description of it |
| `query.dfy` | `Query` | `url.Values` as a map, the next-page URL, and the key that content ids are hashed from |
| `paging.dfy` | `Paging` | the pagination loop as a specification function `Scroll` over a finite sequence of replies |
| `processor.dfy` | `Processor` | `processMain` as the function `Main`, and the class `BaseProcessor` with the source's fields and entry points as methods |

The imperative parts are proved against specification functions:
- the class methods `BaseProcessor.ProcessMain` against `Main`;
- `BaseProcessor.ProcessPages` against `Scroll`;
- `BaseProcessor.ExtractPayload` against `Extract`;
- the module-level method `SelectLines`, the line-reading loop, against `SelectPayload`.

The lemmas about those functions state what the source promises.

`processPages` calls itself once per page in the source. The model runs it as
a `while` loop over the replies, one iteration per call. Its loop invariant
(`Paging.Resumes`) says that finishing the remaining replies ends where
`Scroll` ends.

The normaliser is sometimes described as idempotent, but the code is not.
`&amp;quot;` becomes `&quot;` on the first pass and `"` on the second. The
model follows the code, and `Replacer.NotIdempotent` proves the difference.

## Model

| member | source | states |
|---|---|---|
| Text.Contains | processor.go:223-231 | defines `strings.Contains`: the substring starts the text or occurs in its tail; `Text.ContainsIff` characterises it |
| Text.IndexOf | processor.go:221 | the first position of the character: it is there and nowhere before; with none, the character does not occur |
| Text.LastIndexOf | processor.go:77 | the last position of the character: it is there and nowhere after; with none, the character does not occur |
| Text.Itoa | processor.go:312 | defines `strconv.Itoa`: a minus sign for negative numbers, then the digits; `Text.ItoaRoundTrip` is its partner |
| Text.ContainsIff | processor.go:223-231 | `strings.Contains` holds exactly when the substring occurs at some position |
| Text.NatDigits | processor.go:312 | the decimal form of a natural is a non-empty digit string without a leading zero |
| Text.ItoaRoundTrip | processor.go:312 | the `strconv.Itoa` text of the offset reads back as the same integer, negative numbers included |
| Replacer.Replace | processor.go:69-74 | defines one pass of `strings.NewReplacer`: the first rule that applies emits its replacement and the pass resumes after the pattern, otherwise one character is copied; the lemmas below state its properties |
| Replacer.Normalize | processor.go:250 | defines `replacer.Replace` as one pass with the processor's table, used on the payload and on every page (processor.go:287) |
| Replacer.FirstRule | processor.go:69-74 | the rule applied at a position is the earliest listed one whose pattern starts there; no earlier rule matches; with none, no rule matches at all |
| Replacer.ReplaceNotLonger | processor.go:69-74 | a pass never lengthens text when no replacement is longer than its pattern |
| Replacer.NormalizeNotLonger | processor.go:69-74 | the normalised body is never longer than the input |
| Replacer.ReplaceStrips | processor.go:69-74 | a pass leaves no tab, space or backslash when no replacement holds one and each of them starts some pattern |
| Replacer.NormalizeStrips | processor.go:69-74 | the normalised body contains no tab, no space and no backslash |
| Replacer.ReplaceCopiesPlain | processor.go:69-74 | text holding no character that starts a pattern is copied unchanged, and the pass continues on what follows |
| Replacer.CopiesPlainText | processor.go:69-74 | normalisation copies text without `&`, tab, space or backslash unchanged and in order |
| Replacer.RemoveStripped | processor.go:70-73 | reference definition: deleting every tab, space and backslash leaves none |
| Replacer.TableRuleShape | processor.go:69-74 | every rule not starting with `&` deletes one or two stripped characters, and no replacement is longer than its pattern |
| Replacer.RuleWithoutEntity | processor.go:69-74 | away from an `&`, the rule that applies deletes one or two stripped characters |
| Replacer.NormalizeWithoutEntities | processor.go:69-74 | on text without `&`, normalisation equals the reference deletion of tabs, spaces and backslashes (`\\` removed as one unit) |
| Replacer.DoubleAmpIsOneUnit | processor.go:72 | `&amp;amp;` is rewritten to `&` as one unit, before `&amp;` can apply |
| Replacer.QuotIsOneUnit | processor.go:71 | `&quot;` becomes a double quote |
| Replacer.AmpIsOneUnit | processor.go:72-73 | `&amp;` followed by something other than `amp;` becomes `&` |
| Replacer.AmpQuotFirstPass | processor.go:69-74 | one pass turns `&amp;quot;` into `&quot;`: the output is not rescanned |
| Replacer.NotIdempotent | processor.go:69-74 | a second pass changes text that starts with `&amp;quot;`, so normalisation is not idempotent |
| Patterns.RunLength | processor.go:75 | the greedy `[^#"',]*` run stops exactly at the first of `#"',` |
| Patterns.MatchLength | processor.go:75 | the match at a position where the prefix matches is maximal, and it ends at a stop character or at the end |
| Patterns.PatternPrefixTruncate | processor.go:75 | a prefix pattern that matches the text also matches every longer prefix of it |
| Patterns.FindAll | processor.go:75 | every match found is the fixed prefix followed by characters other than `#"',` |
| Patterns.Leftmost | processor.go:75 | the position found is one where the pattern matches, and it matches at no earlier position |
| Patterns.FindAllLeftmost | processor.go:75 | the first match is the maximal match at the leftmost position, and the rest are the matches after it (non-overlapping) |
| Patterns.FindAllEmptyIff | processor.go:75 | there is no match exactly when the pattern matches at no position |
| Patterns.PatternMatchesItself | processor.go:75 | a pattern without newlines matches its own text, each `.` standing for itself |
| Patterns.UrlMatches | processor.go:75 | every URL match starts with the `mp.weixin.qq.com` prefix pattern and contains no `#"',` after it |
| Patterns.UrlMatchesEmptyIff | processor.go:75 | there is no URL exactly when the URL prefix occurs nowhere |
| Patterns.UrlMatchesLeftmost | processor.go:75 | URLs come leftmost first, each maximal, none overlapping |
| Patterns.LiteralPrefixIsUrl | processor.go:75 | the literal site prefix starts a URL match |
| Patterns.IdAt | processor.go:76 | defines where the id pattern starts: the key `"id":` followed by at least one digit |
| Patterns.DigitRunLength | processor.go:76 | the greedy `\d+` takes every digit up to the first non-digit |
| Patterns.IdMatches | processor.go:76 | every captured id is a non-empty string of digits |
| Patterns.IdMatchesEmptyIff | processor.go:76 | there is no id exactly when `"id":` followed by a digit occurs nowhere |
| Patterns.IdMatchesOne | processor.go:76 | `"id":` followed by digits and then a non-digit captures exactly those digits, and the scan continues after them |
| Patterns.IdMatchesSkip | processor.go:76 | text at none of whose positions the id pattern starts contributes no id, and the scan continues after it |
| Patterns.IdMatchesFirst | processor.go:76 | ids come leftmost first: the first id is the digits after the leftmost key, and the rest are the ids found after them |
| Patterns.UpToNewline | processor.go:77 | `.` stops at the first newline: the reachable part of a line holds no newline and starts the text |
| Patterns.NoQuoteNoToken | processor.go:77 | a line without a double quote yields no token |
| Patterns.TokenMatch | processor.go:77 | defines the first capture of `"(.*)"`: from the first quote whose line holds another quote, up to the last quote on that line; `Patterns.TokenBetweenQuotes` characterises it |
| Patterns.TokenBetweenQuotes | processor.go:77 | on one line, the token is the text strictly between the first and the last double quote, and there is none unless those two differ |
| Lines.ScanFrom | processor.go:226-236 | defines the `for err == nil` loop: remember the last token line, stop at the first line with `msgList = `, stop without a payload when a read hits the end |
| Lines.SelectPayload | processor.go:218-237 | defines the line selection of `processMain`; `Lines.SelectPayloadByLines` characterises it |
| Lines.ReadLine | processor.go:221 | a read returns the text up to and including the next newline; with no newline left, it returns the rest and reports end of input |
| Lines.TerminatedLines | processor.go:226-236 | every line the loop can see ends in its only newline |
| Lines.FirstWith | processor.go:231-234 | the first line holding the list marker |
| Lines.LastWithin | processor.go:227-229 | the last line up to a bound holding the token marker |
| Lines.ReadLineIsFirstLine | processor.go:221 | a successful read returns the first terminated line of the unread text |
| Lines.ScanFromLines | processor.go:226-236 | the read loop visits exactly the newline-terminated lines, in order |
| Lines.ScanLinesSelects | processor.go:226-236 | the loop selects the first line with `msgList = `, and the last line with `window.appmsg_token =` at or before it, else the earlier token line |
| Lines.SelectPayloadByLines | processor.go:218-237 | a first read with `general_msg_list` is the payload and gives no token line; otherwise the selection is that of the terminated lines |
| Lines.UnterminatedTailIgnored | processor.go:226 | text after the last newline is never a terminated line |
| Lines.UnterminatedTailNotInspected | processor.go:226-236 | once the body holds a newline, a final piece without one does not change the selection |
| Query.Get | processor.go:93 | defines `url.Values.Get`: the first value of the key, or the empty string |
| Query.Set | processor.go:312 | defines `url.Values.Set`: the key holds exactly the one value |
| Query.GenPageUrl | processor.go:309-330 | defines `genPageUrl`: the request query with the paging keys set in the source's order, sent to the profile endpoint; `Query.GenPageUrlKeeps` and `Query.GenPageUrlSets` state its properties |
| Query.SetAllKeeps | processor.go:311-322 | setting keys adds exactly those keys and leaves every other key's values alone |
| Query.SetAllAt | processor.go:311-322 | with distinct keys, each key set ends up with exactly its one value |
| Query.PagingPairsKeys | processor.go:312-322 | the next-page request sets nine distinct keys |
| Query.GenPageUrlKeeps | processor.go:309-330 | the next-page URL goes to the profile endpoint; its keys are the original ones plus the paging keys; every other key keeps its values |
| Query.GenPageUrlSets | processor.go:311-322 | `offset` is the decimal offset and reads back as it, `appmsg_token` is the token, and each fixed key holds exactly its fixed value |
| Query.IdKey | processor.go:334 | defines the hash key: `__biz`, `mid` and `idx` joined by `_` |
| Query.GenId | processor.go:332-335 | defines `genId` as `hashKey` of the hash key |
| Query.SameIdKeySameId | processor.go:332-335 | URLs agreeing on `__biz`, `mid` and `idx` get the same hash key and the same id |
| Query.IdKeyNotInjective | processor.go:334 | different `__biz` values can give the same hash key once a value holds `_` |
| Query.SeparatorFirst | processor.go:334 | the first `_` of a join is its separator when the left value holds none |
| Query.JoinUnique | processor.go:334 | a join of values without `_` splits back uniquely |
| Query.IdKeyInjectiveWithoutUnderscore | processor.go:334 | when `__biz` and `mid` hold no `_`, the hash key determines all three values |
| Paging.Results | processor.go:255-258 | one link record per URL match, in order, with no `mid` |
| Paging.Step | processor.go:296-301 | defines one successful page: last id as cursor, offset plus ids plus one, links appended |
| Paging.Visit | processor.go:281-305 | defines one reply: a transport failure stops with an error, a page without URLs or ids stops cleanly, any other page steps |
| Paging.Scroll | processor.go:270-307 | defines the whole pagination loop over the replies; `Paging.ScrollStops`, `Paging.ScrollOffset`, `Paging.ScrollOffsetAt` and `Paging.ScrollCursor` state its properties |
| Paging.AppendResults | processor.go:299-301 | appending a page's links keeps the old list as a prefix and every link a URL match |
| Paging.ReadPage | processor.go:287-295 | an accepted page has at least one URL and one id; the URLs are URL matches and the ids non-empty digit strings |
| Paging.ReadPageAccepts | processor.go:287-295 | a page is turned away exactly when the URL pattern or the id pattern starts at no position of its normalised body |
| Paging.ReadPageSound | processor.go:287-295 | the page reader only yields URL matches and digit ids |
| Paging.ResumesStart | processor.go:270-307 | the loop invariant holds before the first reply |
| Paging.ResumesStep | processor.go:296-304 | a page that does not stop the loop keeps the invariant |
| Paging.ResumesHalt | processor.go:282-295 | a reply that stops the loop ends it where `Scroll` ends |
| Paging.ResumesEnd | processor.go:270-307 | when the replies run out, the loop ends where `Scroll` ends |
| Paging.Successes | processor.go:282-295 | the pages before the first stopper all succeed, and the next reply, if any, stops the loop |
| Paging.GrowthOfTwo | processor.go:297 | two pages with k1 and k2 ids advance the offset by k1 + k2 + 2 |
| Paging.GrowthAtLeast | processor.go:297 | every successful page advances the offset by at least two |
| Paging.ScrollStops | processor.go:270-307 | the loop ends only at the first empty page or transport failure, or when the replies run out; it makes one request per page up to and including the stopper; it reports a transport failure exactly when the stopper is one |
| Paging.ScrollOffset | processor.go:296-304 | after the loop the offset has grown by the sum of (ids + 1) over the successful pages |
| Paging.ScrollOffsetAt | processor.go:270-312 | the k-th request asks for the starting offset plus the growth of the first k pages |
| Paging.ScrollCursor | processor.go:296-302 | the old links stay a prefix and all links stay URL matches; no successful page leaves the cursor unchanged; otherwise the cursor ends non-empty and all digits, so line 302 always recurses |
| Processor.NewToken | processor.go:238-245 | defines the token update: the token line's capture when there is one, otherwise the old token; `Processor.MainToken` characterises it |
| Processor.Extract | processor.go:247-266 | defines the extraction half of `processMain`; `Processor.ExtractKeeps` and `Processor.MainLinks` state its properties |
| Processor.Harvest | processor.go:251-266 | defines the matching on the normalised payload: no URL is an error with no links, URLs without ids an error that keeps the links, otherwise the last id and the offset advanced; `Processor.HarvestSucceeds` states its success case |
| Processor.HarvestSucceeds | processor.go:260-266 | on success there is at least one id match, the cursor is the last of them, a non-empty digit string, and the offset has grown by their number plus one |
| Processor.Main | processor.go:216-268 | defines `processMain` as a function of the body, offset, cursor and token |
| Processor.TerminatedLineIsSingle | processor.go:221-235 | a line read up to a newline is a single line |
| Processor.TokenLineIsSingle | processor.go:227-229 | the selected token line is empty or a single line |
| Processor.MainToken | processor.go:238-245 | the new token is the text between the first and last quote of the token line; without a quote the old token is kept |
| Processor.ExtractKeeps | processor.go:247-266 | on success the cursor is the last id match (non-empty digits) and the offset grows by exactly the number of id matches plus one; on failure the offset and cursor are unchanged; links are empty unless only the ids were missing; all links are URL matches |
| Processor.MainLinks | processor.go:250-258 | the links kept are exactly the URL matches of the normalised payload, in document order, leftmost first |
| Processor.PageRequestsSnoc | processor.go:271 | one more page means one more request, appended after the others |
| Processor.PageRequestsAt | processor.go:271 | the k-th request is the next-page URL for the k-th offset |
| Processor.WrapUrls | processor.go:255-258 | the loop wraps each URL match into a link record, in order |
| Processor.SelectLines | processor.go:218-237 | the read loop selects the payload and token lines `SelectPayload` describes |
| Processor.BaseProcessor.constructor | processor.go:85-87 | every field starts at its zero value |
| Processor.BaseProcessor.Init | processor.go:89-97 | stores the request and body, sets the article index to -1, records `__biz` and the listing URL; offset, cursor and links are untouched |
| Processor.BaseProcessor.ProcessMain | processor.go:216-268 | error, cursor, links and token are those of `Main` for the body and the old offset, cursor and token |
| Processor.BaseProcessor.ExtractPayload | processor.go:247-266 | error and cursor are those of `Extract`, keeping the session invariant |
| Processor.BaseProcessor.ProcessPages | processor.go:270-307 | the final cursor and stop reason are those of `Scroll` from the old cursor; the requests are the next-page URLs for the offsets `Scroll` asks for; only offset, cursor and links change |
| Processor.BaseProcessor.VisitPage | processor.go:281-305 | one reply updates the state as `Visit` does; when the loop goes on, the cursor is non-empty |
| Processor.BaseProcessor.TakePage | processor.go:287-301 | a page without URLs or ids leaves the state alone; any other page performs `Step` and leaves the cursor non-empty |
| Processor.BaseProcessor.Advance | processor.go:296-301 | the cursor becomes the last id, the offset grows by ids + 1, and the page's links are appended |
| Processor.BaseProcessor.ProcessList | processor.go:98-124 | returns the body; sets `Type`, the request, the body, the article index, `__biz` and the listing URL; the token, links and cursor are those of `Main` from the accumulated offset; with auto-scroll on and no error, those of `Scroll` after it; a transport failure is reported as an error; `detailResult` is untouched |
| Processor.BaseProcessor.MainThenPages | processor.go:113-123 | `processMain`, then, only when it succeeded and auto-scroll is on, `processPages`, whose transport failure becomes the error |
| Processor.BaseProcessor.ProcessDetail | processor.go:126-141 | returns the body; the record is the page under the id of its URL with no counters; the article index grows by one; links, cursor, offset and token are untouched |
| Processor.BaseProcessor.ProcessMetrics | processor.go:143-168 | returns the body; the record is replaced by the decoded counters, filed under the Referer's URL and its id; a failed decode gives the zero record; never an error; the article index, links, cursor, offset and token are untouched |
| Processor.BaseProcessor.HistoryUrl | processor.go:178-180 | the listing URL recorded by the last `init` |
| Processor.BaseProcessor.NextBiz | processor.go:170-172 | the base processor names no next account |
| Processor.BaseProcessor.NextUrl | processor.go:174-176 | the base processor names no next article |

## Left out

- HTTP transport is not modelled: request construction, header copying, `DefaultClient.Do` and body reading (processor.go:273-286, 100-106, 130-136, 147-153). A fetch is an element of the finite sequence `pages`: a body or `TransportFailure`. The read and close errors of the entry points are not modelled, and neither is the `http.NewRequest` error on a malformed URL.
- `Stop.RepliesExhausted` exists only in the model. It marks the point where the finite sequence of replies runs out while the program would still be fetching.
- `Sleep`, `logf`, `Output` and the `fmt.Println` in `init` are not modelled (processor.go:95, 182-184, 198-213, 343-347). They are timing and diagnostics only.
- `rootConfig.AutoScroll` is defined outside this file, so it is the `autoScroll` parameter of `ProcessList`. `rootConfig.Verbose` only affects logging.
- `hashKey` (processor.go:337-341) is an MD5 hex digest, which the model does not compute. It is the function-valued field `hashKey` of the class. Only the key string passed to it is modelled.
- `json.Unmarshal` (processor.go:159) is an input, `decoded`. `None` stands for the zero record that a rejected body leaves. A decode that fails part way and leaves some fields set is not modelled.
- `url.ParseRequestURI`, `URL.Query` and `Values.Encode` (processor.go:311, 324, 333) are not modelled: a URL is its text plus its query as a map. Percent-encoding and key sorting are not modelled, and neither is re-parsing `URL.String()` in `ProcessDetail`.
- Processor.BaseProcessor.ProcessMetrics: requires a Referer that parses. With none, `genId` dereferences a nil URL (processor.go:333-334) and panics; the panic is not modelled.
- The accessors `UrlResults`, `DetailResult` and `GetRequest` (processor.go:186-196) are left out because they only read a field, and the fields of the Dafny class are readable directly. The `Processor` interface (processor.go:22-30) declares nothing else.
- `UrlResult._URL` (processor.go:53) is never set by the processor and is not modelled. `Mid` is always empty.
- Go strings are bytes and its regular expressions work on UTF-8 characters. The model works on Dafny characters; every pattern is ASCII.
- Go's `int` is 64 bits wide. The model's integers are unbounded, so offset overflow is not modelled.
- The recursion of `processPages` is a `while` loop over the replies, one iteration per recursive call. The body of one iteration is split into `VisitPage`, `TakePage` and `Advance`.
