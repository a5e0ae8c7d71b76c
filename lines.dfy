/**
 * How the listing parse picks its lines (processor.go:218-237). The body is
 * read with `bytes.Buffer.ReadString('\n')`: each read returns the text up to
 * and including the next newline, or, when no newline is left, the rest of
 * the body together with `io.EOF`.
 */
module Lines {
  import opened Wrappers
  import opened Text

  const GeneralMarker: string := "general_msg_list"
  const TokenMarker: string := "window.appmsg_token ="
  const MsgListMarker: string := "msgList = "

  /** The result of one `ReadString('\n')`: the text read, where the next read
      starts, and whether the read ended on a newline (`err == nil`). */
  datatype Read = Read(line: string, next: nat, ok: bool)

  /** `ReadString('\n')` on the unread part of `data` that starts at `pos`. */
  function ReadLine(data: string, pos: nat): (r: Read)
    requires pos <= |data|
    ensures pos <= r.next <= |data| && r.line == data[pos..r.next]
    ensures r.ok ==> r.next > pos && data[r.next - 1] == '\n' && '\n' !in data[pos..r.next - 1]
    ensures !r.ok ==> r.next == |data| && '\n' !in r.line
  {
    match IndexOf(data[pos..], '\n')
    case Some(k) =>
      assert data[pos..pos + k + 1][..k] == data[pos..][..k];
      Read(data[pos..pos + k + 1], pos + k + 1, true)
    case None => Read(data[pos..], |data|, false)
  }

  /** The payload line and the token line the parse settles on; the empty
      string stands for "none", as in the source. */
  datatype Selection = Selection(payload: string, tokenLine: string)

  /** The `for err == nil` loop, from the line that starts at `pos`, with the
      token line seen so far. */
  function ScanFrom(data: string, pos: nat, token: string): Selection
    requires pos <= |data|
    decreases |data| - pos
  {
    var r := ReadLine(data, pos);
    if !r.ok then Selection("", token)
    else
      var token' := if Contains(r.line, TokenMarker) then r.line else token;
      if Contains(r.line, MsgListMarker) then Selection(r.line, token')
      else ScanFrom(data, r.next, token')
  }

  /** The lines the listing parse selects from a body. */
  function SelectPayload(data: string): Selection {
    var first := ReadLine(data, 0);
    if Contains(first.line, GeneralMarker) then Selection(first.line, "")
    else ScanFrom(data, 0, "")
  }

  // ---------------------------------------------------------------------
  // An independent description in terms of the body's lines
  // ---------------------------------------------------------------------

  /** Every newline-terminated line of `data`, in order; an unterminated last
      piece is not a line here. */
  function TerminatedLines(data: string): (r: seq<string>)
    ensures forall k :: 0 <= k < |r| ==> r[k] != [] && r[k][|r[k]| - 1] == '\n'
    ensures forall k :: 0 <= k < |r| ==> '\n' !in r[k][..|r[k]| - 1]
    decreases |data|
  {
    match IndexOf(data, '\n')
    case None => []
    case Some(k) =>
      assert data[..k + 1][..k] == data[..k];
      [data[..k + 1]] + TerminatedLines(data[k + 1..])
  }

  /** Index of the first line that contains `marker`. */
  function FirstWith(lines: seq<string>, marker: string): (r: Option<nat>)
    ensures r.Some? ==> r.value < |lines| && Contains(lines[r.value], marker)
    ensures r.Some? ==> forall k :: 0 <= k < r.value ==> !Contains(lines[k], marker)
    ensures r.None? ==> forall k :: 0 <= k < |lines| ==> !Contains(lines[k], marker)
  {
    if lines == [] then None
    else if Contains(lines[0], marker) then Some(0)
    else match FirstWith(lines[1..], marker)
      case None => None
      case Some(k) => Some(k + 1)
  }

  /** Index of the last of the first `n` lines that contains `marker`. */
  function LastWithin(lines: seq<string>, n: nat, marker: string): (r: Option<nat>)
    requires n <= |lines|
    ensures r.Some? ==> r.value < n && Contains(lines[r.value], marker)
    ensures r.Some? ==> forall k :: r.value < k < n ==> !Contains(lines[k], marker)
    ensures r.None? ==> forall k :: 0 <= k < n ==> !Contains(lines[k], marker)
  {
    if n == 0 then None
    else if Contains(lines[n - 1], marker) then Some(n - 1)
    else LastWithin(lines, n - 1, marker)
  }

  /** What the loop selects from a list of lines: the first line with the
      list marker, and the last line with the token marker up to and including
      it (or up to the end when there is none); `token` when no line has it. */
  function Selected(lines: seq<string>, token: string): Selection {
    var m := FirstWith(lines, MsgListMarker);
    var limit := if m.Some? then m.value + 1 else |lines|;
    var t := LastWithin(lines, limit, TokenMarker);
    Selection(if m.Some? then lines[m.value] else "", if t.Some? then lines[t.value] else token)
  }

  /** The loop as a recursion over the lines. */
  function ScanLines(lines: seq<string>, token: string): Selection {
    if lines == [] then Selection("", token)
    else
      var token' := if Contains(lines[0], TokenMarker) then lines[0] else token;
      if Contains(lines[0], MsgListMarker) then Selection(lines[0], token')
      else ScanLines(lines[1..], token')
  }

  /** A successful read returns the first terminated line of the unread text. */
  lemma ReadLineIsFirstLine(data: string, pos: nat)
    requires pos <= |data|
    ensures var r := ReadLine(data, pos);
      TerminatedLines(data[pos..]) == if r.ok then [r.line] + TerminatedLines(data[r.next..]) else []
  {
    var r := ReadLine(data, pos);
    var rest := data[pos..];
    if r.ok {
      var k := r.next - pos - 1;
      assert IndexOf(rest, '\n') == Some(k);
      assert rest[..k + 1] == r.line;
      assert rest[k + 1..] == data[r.next..];
    }
  }

  /** Reading from `pos` on visits exactly the terminated lines of the rest. */
  lemma {:induction false} ScanFromLines(data: string, pos: nat, token: string)
    requires pos <= |data|
    ensures ScanFrom(data, pos, token) == ScanLines(TerminatedLines(data[pos..]), token)
    decreases |data| - pos
  {
    var r := ReadLine(data, pos);
    ReadLineIsFirstLine(data, pos);
    if r.ok {
      var token' := if Contains(r.line, TokenMarker) then r.line else token;
      ScanFromLines(data, r.next, token');
      assert ([r.line] + TerminatedLines(data[r.next..]))[1..] == TerminatedLines(data[r.next..]);
    }
  }

  /** Shifting the window of lines by one. */
  lemma FirstWithTail(lines: seq<string>, marker: string)
    requires lines != [] && !Contains(lines[0], marker)
    ensures FirstWith(lines, marker) ==
      if FirstWith(lines[1..], marker).Some? then Some(FirstWith(lines[1..], marker).value + 1) else None
  {
  }

  lemma {:induction false} LastWithinTail(lines: seq<string>, n: nat, marker: string)
    requires 1 <= n <= |lines|
    ensures LastWithin(lines, n, marker) ==
      match LastWithin(lines[1..], n - 1, marker)
      case Some(t) => Some(t + 1)
      case None => if Contains(lines[0], marker) then Some(0) else None
    decreases n
  {
    if n > 1 && !Contains(lines[n - 1], marker) {
      LastWithinTail(lines, n - 1, marker);
    }
  }

  /** The loop over the lines selects the first list line and the last token
      line at or before it; the token line seen so far survives only when no
      line up to there has the token marker. */
  lemma {:induction false} ScanLinesSelects(lines: seq<string>, token: string)
    ensures ScanLines(lines, token) == Selected(lines, token)
    decreases |lines|
  {
    if lines != [] {
      var l := lines[0];
      var token' := if Contains(l, TokenMarker) then l else token;
      if Contains(l, MsgListMarker) {
        SelectedAtHead(lines, token);
      } else {
        ScanLinesSelects(lines[1..], token');
        SelectedTail(lines, token);
      }
    }
  }

  /** A first line with the list marker is selected, together with itself as
      the token line when it also has the token marker. */
  lemma SelectedAtHead(lines: seq<string>, token: string)
    requires lines != [] && Contains(lines[0], MsgListMarker)
    ensures Selected(lines, token) ==
      Selection(lines[0], if Contains(lines[0], TokenMarker) then lines[0] else token)
  {
    assert FirstWith(lines, MsgListMarker) == Some(0);
    assert LastWithin(lines, 1, TokenMarker) == if Contains(lines[0], TokenMarker) then Some(0) else None;
  }

  /** Past a first line without the list marker, the selection is that of the
      remaining lines, with the first line as the token line so far when it has
      the token marker. */
  lemma SelectedTail(lines: seq<string>, token: string)
    requires lines != [] && !Contains(lines[0], MsgListMarker)
    ensures Selected(lines, token) ==
      Selected(lines[1..], if Contains(lines[0], TokenMarker) then lines[0] else token)
  {
    FirstWithTail(lines, MsgListMarker);
    var m := FirstWith(lines[1..], MsgListMarker);
    var limit := if m.Some? then m.value + 1 else |lines[1..]|;
    LastWithinTail(lines, limit + 1, TokenMarker);
    if m.Some? {
      assert lines[1..][m.value] == lines[m.value + 1];
    }
    match LastWithin(lines[1..], limit, TokenMarker)
    case Some(t) => assert lines[1..][t] == lines[t + 1];
    case None =>
  }

  /** The listing parse, described by the lines of the body: with the older
      format marker on the first read the payload is that read and there is no
      token line; otherwise the payload is the first newline-terminated line
      with `msgList = `, and the token line is the last line with
      `window.appmsg_token =` at or before it. */
  lemma SelectPayloadByLines(data: string)
    ensures var first := ReadLine(data, 0).line;
      SelectPayload(data) ==
        if Contains(first, GeneralMarker) then Selection(first, "")
        else Selected(TerminatedLines(data), "")
  {
    ScanFromLines(data, 0, "");
    assert data[0..] == data;
    ScanLinesSelects(TerminatedLines(data), "");
  }

  /** Appending text leaves the first newline where it was. */
  lemma IndexOfAppend(x: string, y: string, c: char)
    ensures IndexOf(x, c).Some? ==> IndexOf(x + y, c) == IndexOf(x, c)
    ensures IndexOf(x, c).None? && c !in y ==> IndexOf(x + y, c).None?
  {
    var a, b := IndexOf(x, c), IndexOf(x + y, c);
    if a.Some? {
      assert (x + y)[..a.value] == x[..a.value];
      assert (x + y)[a.value] == c;
      assert b.Some?;
    }
  }

  /** Text after the last newline is never a terminated line. */
  lemma {:induction false} UnterminatedTailIgnored(data: string, t: string)
    requires '\n' !in t
    ensures TerminatedLines(data + t) == TerminatedLines(data)
    decreases |data|
  {
    IndexOfAppend(data, t, '\n');
    match IndexOf(data, '\n')
    case None =>
    case Some(k) =>
      assert (data + t)[..k + 1] == data[..k + 1];
      assert (data + t)[k + 1..] == data[k + 1..] + t;
      UnterminatedTailIgnored(data[k + 1..], t);
  }

  /** A final piece without a newline does not change what the listing parse
      selects, once the body holds a newline. */
  lemma UnterminatedTailNotInspected(data: string, t: string)
    requires '\n' !in t && '\n' in data
    ensures SelectPayload(data + t) == SelectPayload(data)
  {
    UnterminatedTailIgnored(data, t);
    SelectPayloadByLines(data);
    SelectPayloadByLines(data + t);
    IndexOfAppend(data, t, '\n');
    assert data[0..] == data && (data + t)[0..] == data + t;
    var k := IndexOf(data, '\n').value;
    assert (data + t)[0..k + 1] == data[0..k + 1];
  }
}
