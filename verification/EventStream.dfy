/**
 Following a run's events: the reader of an NDJSON file that is still being written, and
 the stream that polls it from a byte offset.
 */
module EventStream {
  import opened Wrappers

  const RETURN: Byte := 13

  // What `json.loads` makes of one line: an event, or nothing when it is no JSON object.
  type LineParser<!E> = Bytes -> Option<E>

  // ---- `bytes.splitlines`: lines end at \n, \r or \r\n ----

  // Where the first line's text ends, and where the next line starts.
  function LineEnd(s: Bytes): (n: nat)
    ensures n <= |s|
    ensures forall i :: 0 <= i < n ==> s[i] != NEWLINE && s[i] != RETURN
    ensures n < |s| ==> s[n] == NEWLINE || s[n] == RETURN
  {
    if s == [] || s[0] == NEWLINE || s[0] == RETURN then 0 else 1 + LineEnd(s[1..])
  }

  function NextLine(s: Bytes): (n: nat)
    requires s != []
    ensures 0 < n <= |s|
  {
    var e := LineEnd(s);
    if e == |s| then e
    else if s[e] == RETURN && e + 1 < |s| && s[e + 1] == NEWLINE then e + 2
    else e + 1
  }

  function SplitLines(s: Bytes): seq<Bytes> {
    if s == [] then [] else [s[..LineEnd(s)]] + SplitLines(s[NextLine(s)..])
  }

  function Keep<E>(o: Option<E>): seq<E> {
    if o.Some? then [o.value] else []
  }

  function ParseLines<E>(parse: LineParser<E>, lines: seq<Bytes>): seq<E> {
    if lines == [] then []
    else ParseLines(parse, lines[..|lines| - 1]) + Keep(parse(lines[|lines| - 1]))
  }

  /** The events of a whole byte range, read at once. */
  function Parse<E>(parse: LineParser<E>, s: Bytes): seq<E> {
    ParseLines(parse, SplitLines(s))
  }

  predicate WholeLines(s: Bytes) {
    s == [] || s[|s| - 1] == NEWLINE
  }

  // The length of the longest prefix of whole lines: `chunk.rfind(b"\n") + 1`.
  function Complete(s: Bytes): (n: nat)
    ensures n <= |s| && WholeLines(s[..n])
    ensures forall i :: n <= i < |s| ==> s[i] != NEWLINE
  {
    if s == [] then 0
    else if s[|s| - 1] == NEWLINE then |s|
    else Complete(s[..|s| - 1])
  }

  /**
   Where lines end: at \n, at \r, and at \r\n as one. A text without these is one line, and an
   end at the very end of the text does not make another line.
   */
  lemma LinesEndAt(text: Bytes, rest: Bytes)
    requires NEWLINE !in text && RETURN !in text
    ensures SplitLines(text) == if text == [] then [] else [text]
    ensures SplitLines(text + [NEWLINE] + rest) == [text] + SplitLines(rest)
    ensures SplitLines(text + [RETURN, NEWLINE] + rest) == [text] + SplitLines(rest)
    ensures rest == [] || rest[0] != NEWLINE ==> SplitLines(text + [RETURN] + rest) == [text] + SplitLines(rest)
  {
    WholeText(text);
    LineEndsWith(text, [NEWLINE], rest);
    LineEndsWith(text, [RETURN, NEWLINE], rest);
    if rest == [] || rest[0] != NEWLINE {
      LineEndsWith(text, [RETURN], rest);
    }
  }

  lemma WholeText(text: Bytes)
    requires NEWLINE !in text && RETURN !in text
    ensures SplitLines(text) == if text == [] then [] else [text]
  {
    OneLineThen(text, []);
    assert text + [] == text && text[..|text|] == text && text[|text|..] == [];
  }

  lemma LineEndsWith(text: Bytes, end: Bytes, rest: Bytes)
    requires NEWLINE !in text && RETURN !in text
    requires end == [NEWLINE] || end == [RETURN, NEWLINE] || (end == [RETURN] && (rest == [] || rest[0] != NEWLINE))
    ensures SplitLines(text + end + rest) == [text] + SplitLines(rest)
  {
    var s := text + end + rest;
    OneLineThen(text, end + rest);
    assert text + (end + rest) == s;
    assert s[|text|] == end[0] && (|s| > |text| + 1 ==> s[|text| + 1] == (end + rest)[1]);
    EndsLine(s, text, |end|, rest);
  }

  lemma {:induction false} OneLineThen(text: Bytes, end: Bytes)
    requires NEWLINE !in text && RETURN !in text && (end == [] || end[0] == NEWLINE || end[0] == RETURN)
    ensures LineEnd(text + end) == |text|
  {
    if text == [] {
      assert text + end == end;
    } else {
      assert (text + end)[0] == text[0] && (text + end)[1..] == text[1..] + end;
      OneLineThen(text[1..], end);
    }
  }

  lemma EndsLine(s: Bytes, text: Bytes, n: nat, rest: Bytes)
    requires s != [] && LineEnd(s) == |text| && NextLine(s) == |text| + n && |s| == |text| + n + |rest|
    requires text <= s && s[|text| + n..] == rest
    ensures SplitLines(s) == [text] + SplitLines(rest)
  {
    assert s[..|text|] == text;
  }

  // ---- parsing is additive at newlines ----

  lemma {:induction false} LineEndWhole(a: Bytes, b: Bytes)
    requires a != [] && WholeLines(a)
    ensures LineEnd(a + b) == LineEnd(a) < |a|
    decreases |a|
  {
    assert (a + b)[0] == a[0];
    if a[0] != NEWLINE && a[0] != RETURN {
      assert (a + b)[1..] == a[1..] + b;
      assert a[1..] != [] && a[1..][|a| - 2] == a[|a| - 1];
      LineEndWhole(a[1..], b);
    }
  }

  lemma {:induction false} SplitAdditive(a: Bytes, b: Bytes)
    requires WholeLines(a)
    ensures SplitLines(a + b) == SplitLines(a) + SplitLines(b)
    decreases |a|
  {
    if a == [] {
      assert a + b == b;
    } else {
      FirstLineWhole(a, b);
      var first, rest := a[..LineEnd(a)], a[NextLine(a)..];
      SplitAdditive(rest, b);
      InFront([first], SplitLines(rest), SplitLines(b), SplitLines(a), SplitLines(rest + b));
    }
  }

  lemma FirstLineWhole(a: Bytes, b: Bytes)
    requires a != [] && WholeLines(a)
    ensures var (e, n) := (LineEnd(a), NextLine(a));
            && LineEnd(a + b) == e < |a| && NextLine(a + b) == n <= |a|
            && (a + b)[..e] == a[..e] && (a + b)[n..] == a[n..] + b && WholeLines(a[n..])
  {
    LineEndWhole(a, b);
    var e, n := LineEnd(a), NextLine(a);
    assert (a + b)[e] == a[e];
    assert e + 1 < |a| ==> (a + b)[e + 1] == a[e + 1];
    assert n < |a| ==> a[n..][|a| - n - 1] == a[|a| - 1];
  }

  lemma {:induction false} ParseLinesAdditive<E>(parse: LineParser<E>, a: seq<Bytes>, b: seq<Bytes>)
    ensures ParseLines(parse, a + b) == ParseLines(parse, a) + ParseLines(parse, b)
  {
    if b == [] {
      assert a + b == a;
    } else {
      assert (a + b)[..|a + b| - 1] == a + b[..|b| - 1];
      ParseLinesAdditive(parse, a, b[..|b| - 1]);
    }
  }

  lemma ParseAdditive<E>(parse: LineParser<E>, a: Bytes, b: Bytes)
    requires WholeLines(a)
    ensures Parse(parse, a + b) == Parse(parse, a) + Parse(parse, b)
  {
    SplitAdditive(a, b);
    ParseLinesAdditive(parse, SplitLines(a), SplitLines(b));
  }

  // ---- `_read_ndjson` ----

  function Clamp(n: nat, size: nat): (m: nat)
    ensures m <= size
  {
    if n < size then n else size
  }

  // What one read returns; `file` is None when the file cannot be opened.
  function ReadAt<E>(parse: LineParser<E>, file: Option<Bytes>, offset: nat, end: Option<nat>): (seq<E>, nat) {
    if file.None? then ([], if end.Some? then end.value else offset)
    else
      var f := file.value;
      var from := Clamp(offset, |f|);
      if end.Some? then
        var upto := if end.value < offset then from else Clamp(end.value, |f|);
        (Parse(parse, f[from..upto]), end.value)
      else
        var chunk := f[from..];
        (Parse(parse, chunk[..Complete(chunk)]), offset + Complete(chunk))
  }

  method ReadNdjson<E>(parse: LineParser<E>, file: Option<Bytes>, offset: nat, end: Option<nat>)
    returns (payloads: seq<E>, next: nat)
    ensures (payloads, next) == ReadAt(parse, file, offset, end)
  {
    if file.None? {
      payloads, next := [], if end.Some? then end.value else offset;
      return;
    }
    var chunk := file.value[Clamp(offset, |file.value|)..];
    if end.Some? {
      BoundedRead(file.value, offset, end.value);
      chunk := chunk[..Clamp(if end.value < offset then 0 else end.value - offset, |chunk|)];
      next := end.value;
    } else {
      var consumed := LastNewline(chunk);
      next := offset + consumed;
      chunk := chunk[..consumed];
    }
    payloads := ParseChunk(parse, chunk);
  }

  // `read(max(0, end - offset))` after a seek to `offset`.
  lemma BoundedRead(f: Bytes, offset: nat, end: nat)
    ensures var from := Clamp(offset, |f|);
            var upto := if end < offset then from else Clamp(end, |f|);
            from <= upto
            && f[from..][..Clamp(if end < offset then 0 else end - offset, |f| - from)] == f[from..upto]
  {
  }

  method ParseChunk<E>(parse: LineParser<E>, chunk: Bytes) returns (payloads: seq<E>)
    ensures payloads == Parse(parse, chunk)
  {
    payloads := [];
    var lines := SplitLines(chunk);
    var i := 0;
    while i < |lines|
      invariant 0 <= i <= |lines|
      invariant payloads == ParseLines(parse, lines[..i])
    {
      var payload := parse(lines[i]);
      assert lines[..i + 1][..i] == lines[..i];
      if payload.Some? {
        payloads := payloads + [payload.value];
      }
      i := i + 1;
    }
    assert lines[..i] == lines;
  }

  // `rfind`, from the back.
  method LastNewline(chunk: Bytes) returns (n: nat)
    ensures n == Complete(chunk)
  {
    n := |chunk|;
    while n > 0 && chunk[n - 1] != NEWLINE
      invariant 0 <= n <= |chunk|
      invariant Complete(chunk) == Complete(chunk[..n])
    {
      assert chunk[..n][..n - 1] == chunk[..n - 1];
      n := n - 1;
    }
    assert chunk[..n] == if n == |chunk| then chunk else chunk[..n];
  }

  // ---- `iter_sse_from_ndjson_file` ----

  // One turn of the polling loop: the end offset it sampled, then the file it read.
  datatype Poll = Poll(end: Option<nat>, file: Option<Bytes>)

  function Delivered<E>(parse: LineParser<E>, offset: nat, polls: seq<Poll>): seq<E>
    decreases |polls|
  {
    if polls == [] then []
    else
      var (events, next) := ReadAt(parse, polls[0].file, offset, polls[0].end);
      if polls[0].end.Some? then events else events + Delivered(parse, next, polls[1..])
  }

  // Where the live polls leave the reader.
  function Reached<E>(parse: LineParser<E>, offset: nat, polls: seq<Poll>): nat
    decreases |polls|
  {
    if polls == [] || polls[0].end.Some? then offset
    else Reached(parse, ReadAt(parse, polls[0].file, offset, None).1, polls[1..])
  }

  // `polls` is what the loop sees until the viewer leaves or the run's end is sampled.
  method TailEvents<E>(parse: LineParser<E>, startOffset: int, polls: seq<Poll>) returns (sent: seq<E>)
    ensures sent == Delivered(parse, if startOffset < 0 then 0 else startOffset, polls)
  {
    sent := [];
    var offset: nat := if startOffset < 0 then 0 else startOffset;
    ghost var all := Delivered(parse, offset, polls);
    assert polls[0..] == polls;
    var k := 0;
    while k < |polls|
      invariant 0 <= k <= |polls| && all == sent + Delivered(parse, offset, polls[k..])
    {
      var poll := polls[k];
      OneTurn(parse, offset, polls, k);
      var payloads, next := ReadNdjson(parse, poll.file, offset, poll.end);
      ghost var rest := Delivered(parse, next, polls[k + 1..]);
      InFront(sent, payloads, rest, sent + payloads, payloads + rest);
      sent := sent + payloads;
      offset := next;
      if poll.end.Some? {
        return;
      }
      k := k + 1;
    }
  }

  lemma OneTurn<E>(parse: LineParser<E>, offset: nat, polls: seq<Poll>, k: nat)
    requires k < |polls|
    ensures var (events, next) := ReadAt(parse, polls[k].file, offset, polls[k].end);
            Delivered(parse, offset, polls[k..])
            == if polls[k].end.Some? then events else events + Delivered(parse, next, polls[k + 1..])
  {
    assert polls[k..][0] == polls[k] && polls[k..][1..] == polls[k + 1..];
  }

  // Every file seen is a prefix of the final one.
  predicate Grows(polls: seq<Poll>, final: Bytes) {
    forall k :: 0 <= k < |polls| && polls[k].file.Some? ==> polls[k].file.value <= final
  }

  predicate AllLive(polls: seq<Poll>) {
    forall k :: 0 <= k < |polls| ==> polls[k].end.None?
  }

  // One live read takes the reader from one line boundary to another.
  lemma LiveRead<E>(parse: LineParser<E>, final: Bytes, offset: nat, file: Option<Bytes>)
    requires offset <= |final| && (file.Some? ==> file.value <= final)
    ensures var (events, next) := ReadAt(parse, file, offset, None);
            && offset <= next <= |final| && WholeLines(final[offset..next])
            && events == Parse(parse, final[offset..next])
            && (file.Some? && next > offset ==> next <= |file.value|)
  {
    if file.Some? && offset <= |file.value| {
      var chunk := file.value[offset..];
      var n := Complete(chunk);
      assert final[offset..offset + n] == chunk[..n];
    } else {
      assert final[offset..offset] == [];
    }
  }

  lemma JoinRange(final: Bytes, a: nat, b: nat, c: nat)
    requires a <= b <= c <= |final|
    ensures final[a..c] == final[a..b] + final[b..c]
    ensures WholeLines(final[a..b]) && WholeLines(final[b..c]) ==> WholeLines(final[a..c])
  {
  }

  lemma SplitRange<E>(parse: LineParser<E>, final: Bytes, a: nat, b: nat, c: nat)
    requires a <= b <= c <= |final| && WholeLines(final[a..b])
    ensures Parse(parse, final[a..c]) == Parse(parse, final[a..b]) + Parse(parse, final[b..c])
  {
    JoinRange(final, a, b, c);
    ParseAdditive(parse, final[a..b], final[b..c]);
  }

  // The state of the reader after live polls: all complete lines up to `r`, and no more.
  predicate UpTo<E(==)>(parse: LineParser<E>, final: Bytes, start: nat, r: nat, sent: seq<E>) {
    start <= r <= |final| && WholeLines(final[start..r]) && sent == Parse(parse, final[start..r])
  }

  lemma UpToJoin<E>(parse: LineParser<E>, final: Bytes, a: nat, b: nat, c: nat, s: seq<E>, t: seq<E>)
    requires UpTo(parse, final, a, b, s) && UpTo(parse, final, b, c, t)
    ensures UpTo(parse, final, a, c, s + t)
  {
    SplitRange(parse, final, a, b, c);
    JoinRange(final, a, b, c);
  }

  /** While the run is live, exactly its complete lines so far are delivered, each once, in order. */
  lemma {:induction false} LiveStreamIsExact<E>(parse: LineParser<E>, final: Bytes, start: nat, polls: seq<Poll>)
    requires start <= |final| && Grows(polls, final) && AllLive(polls)
    ensures UpTo(parse, final, start, Reached(parse, start, polls), Delivered(parse, start, polls))
    decreases |polls|
  {
    if polls == [] {
      assert final[start..start] == [];
    } else {
      LiveRead(parse, final, start, polls[0].file);
      var (events, next) := ReadAt(parse, polls[0].file, start, None);
      assert forall k :: 0 <= k < |polls[1..]| ==> polls[1..][k] == polls[k + 1];
      LiveStreamIsExact(parse, final, next, polls[1..]);
      UpToJoin(parse, final, start, next, Reached(parse, next, polls[1..]), events, Delivered(parse, next, polls[1..]));
    }
  }

  // No poll saw the file longer than `end`.
  predicate SawAtMost(polls: seq<Poll>, end: nat) {
    forall k :: 0 <= k < |polls| && polls[k].file.Some? ==> |polls[k].file.value| <= end
  }

  lemma {:induction false} ReachedWithin<E>(parse: LineParser<E>, start: nat, polls: seq<Poll>, end: nat)
    requires SawAtMost(polls, end) && start <= end
    ensures Reached(parse, start, polls) <= end
    decreases |polls|
  {
    if polls != [] && polls[0].end.None? {
      var next := ReadAt(parse, polls[0].file, start, None).1;
      assert forall k :: 0 <= k < |polls[1..]| ==> polls[1..][k] == polls[k + 1];
      assert next <= end;
      ReachedWithin(parse, next, polls[1..], end);
    }
  }

  lemma {:induction false} DeliveredSplits<E>(parse: LineParser<E>, start: nat, live: seq<Poll>, last: Poll)
    requires AllLive(live)
    ensures Delivered(parse, start, live + [last])
         == Delivered(parse, start, live) + Delivered(parse, Reached(parse, start, live), [last])
    decreases |live|
  {
    if live == [] {
      assert live + [last] == [last];
    } else {
      var (events, next) := ReadAt(parse, live[0].file, start, None);
      assert (live + [last])[0] == live[0] && (live + [last])[1..] == live[1..] + [last];
      assert AllLive(live[1..]);
      DeliveredSplits(parse, next, live[1..], last);
      InFront(events, Delivered(parse, next, live[1..]), Delivered(parse, Reached(parse, next, live[1..]), [last]),
              Delivered(parse, start, live), Delivered(parse, next, live[1..] + [last]));
    }
  }

  // The last read: up to the sampled end, and nothing when the reader is already past it.
  lemma LastRead<E>(parse: LineParser<E>, final: Bytes, r: nat, end: nat, last: Poll)
    requires r <= |final| && end <= |final|
    requires last.end == Some(end) && last.file.Some? && last.file.value <= final && end <= |last.file.value|
    ensures Delivered(parse, r, [last]) == if r <= end then Parse(parse, final[r..end]) else []
  {
    assert Delivered(parse, r, [last]) == ReadAt(parse, last.file, r, last.end).0;
    if r <= end {
      assert last.file.value[r..end] == final[r..end];
    } else {
      var from := Clamp(r, |last.file.value|);
      assert last.file.value[from..from] == [];
    }
  }

  lemma Subrange(final: Bytes, a: nat, b: nat, c: nat)
    requires a <= b <= c <= |final|
    ensures final[a..c][..b - a] == final[a..b]
  {
  }

  // Where the last complete line of a range ends; after it comes a line that was torn off.
  function TornAt(final: Bytes, start: nat, end: nat): (w: nat)
    requires start <= end <= |final|
    ensures start <= w <= end && WholeLines(final[start..w])
    ensures WholeLines(final[start..end]) ==> w == end
  {
    var n := Complete(final[start..end]);
    Subrange(final, start, start + n, end);
    start + n
  }

  /**
   For every polling schedule that ends by sampling the run's end offset `end`, what was sent,
   exactly. The reader is within the end: the events of the range. A live read went beyond it:
   the complete lines of the range, and then every line up to there, the first of which starts
   with the range's torn last line, if it has one.
   */
  lemma StreamDeliversRange<E>(parse: LineParser<E>, final: Bytes, start: nat, end: nat,
                               live: seq<Poll>, last: Poll)
    requires start <= end <= |final| && AllLive(live) && Grows(live, final)
    requires last.end == Some(end) && last.file.Some? && last.file.value <= final && end <= |last.file.value|
    ensures var d := Delivered(parse, start, live + [last]);
            var r := Reached(parse, start, live);
            var w := TornAt(final, start, end);
            && r <= |final|
            && Parse(parse, final[start..end]) == Parse(parse, final[start..w]) + Parse(parse, final[w..end])
            && (r <= end ==> d == Parse(parse, final[start..end]))
            && (end < r ==> d == Parse(parse, final[start..w]) + Parse(parse, final[w..r]))
    ensures SawAtMost(live, end) ==> Reached(parse, start, live) <= end
  {
    LiveStreamIsExact(parse, final, start, live);
    var r, w := Reached(parse, start, live), TornAt(final, start, end);
    DeliveredSplits(parse, start, live, last);
    LastRead(parse, final, r, end, last);
    SplitRange(parse, final, start, w, end);
    if r <= end {
      SplitRange(parse, final, start, r, end);
    } else {
      SplitRange(parse, final, start, w, r);
    }
    if SawAtMost(live, end) {
      ReachedWithin(parse, start, live, end);
    }
  }

  /**
   When the events of the range come first, and when nothing else comes: always, while the
   reader stays within the end. Beyond it, when the torn last line keeps its event, if it has
   one, in front of whatever was appended to it; and when no other event was read with it.
   */
  lemma StreamStartsWithRange<E>(parse: LineParser<E>, final: Bytes, start: nat, end: nat,
                                 live: seq<Poll>, last: Poll)
    requires start <= end <= |final| && AllLive(live) && Grows(live, final)
    requires last.end == Some(end) && last.file.Some? && last.file.value <= final && end <= |last.file.value|
    ensures Reached(parse, start, live) <= |final|
    ensures var d := Delivered(parse, start, live + [last]);
            var r := Reached(parse, start, live);
            var w := TornAt(final, start, end);
            var own := Parse(parse, final[start..end]);
            && (own <= d <==> r <= end || Parse(parse, final[w..end]) <= Parse(parse, final[w..r]))
            && (d == own <==> r <= end || Parse(parse, final[w..end]) == Parse(parse, final[w..r]))
  {
    StreamDeliversRange(parse, final, start, end, live, last);
    var r, w := Reached(parse, start, live), TornAt(final, start, end);
    if end < r {
      SameFront(Parse(parse, final[start..w]), Parse(parse, final[w..end]), Parse(parse, final[w..r]));
    }
  }

  // A line is its own event.
  function Echo(line: Bytes): Option<Bytes> {
    if line == [] then None else Some(line)
  }

  /**
   The stream does not always stop at the run's end: a later run of the cycle can append
   between the sample of the end offset and the read, and its event is delivered too.
   */
  lemma LateReadShowsNextRun()
    ensures var file: Bytes := [97, NEWLINE, 98, NEWLINE];
            var polls := [Poll(None, Some(file)), Poll(Some(2), Some(file))];
            && Delivered(Echo, 0, polls) == [[97], [98]]
            && Parse(Echo, file[0..2]) == [[97]]
  {
    var file: Bytes := [97, NEWLINE, 98, NEWLINE];
    var polls := [Poll(None, Some(file)), Poll(Some(2), Some(file))];
    assert file[0..] == file && file[..4] == file;
    assert file[0..2] == [97, NEWLINE] && file[2..] == [98, NEWLINE];
    TwoLines(file);
    assert polls[1..] == [polls[1]];
    assert Complete(file) == 4;
    assert ReadAt(Echo, polls[0].file, 0, None) == ([[97], [98]], 4);
    assert file[4..4] == [];
    assert Delivered(Echo, 4, [polls[1]]) == [];
  }

  /**
   A run whose last line was torn off can lose that line's event: a live read beyond the end
   joins it with what a later run appended.
   */
  lemma TornLineIsLost()
    ensures var file: Bytes := [97, 98, NEWLINE];
            var polls := [Poll(None, Some(file)), Poll(Some(1), Some(file))];
            && Parse(Echo, file[0..1]) == [[97]]
            && Delivered(Echo, 0, polls) == [[97, 98]]
  {
    var file: Bytes := [97, 98, NEWLINE];
    var line: Bytes := [97, 98];
    var polls := [Poll(None, Some(file)), Poll(Some(1), Some(file))];
    assert file[0..] == file && file[..3] == file && file[..2] == line && file[0..1] == [97];
    assert line[1..] == [98] && file[1..] == [98, NEWLINE] && file[2..] == [NEWLINE];
    assert LineEnd([98]) == 1 && LineEnd([98, NEWLINE]) == 1 && LineEnd(file) == 2;
    OneEvent([97], [97]);
    OneEvent(file, line);
    assert polls[1..] == [polls[1]] && Complete(file) == 3;
    assert ReadAt(Echo, polls[0].file, 0, None) == ([line], 3);
    assert file[3..3] == [];
    assert Delivered(Echo, 3, [polls[1]]) == [];
  }

  lemma ParseOne(line: Bytes)
    requires line != []
    ensures ParseLines(Echo, [line]) == [line]
  {
    var lines := [line];
    assert lines[..0] == [] && ParseLines(Echo, lines[..0]) == [];
    assert ParseLines(Echo, lines) == Keep(Echo(lines[0]));
  }

  // Bytes that are one line.
  lemma OneEvent(s: Bytes, line: Bytes)
    requires line != [] && line == s[..LineEnd(s)] && NextLine(s) == |s|
    ensures Parse(Echo, s) == [line]
  {
    var rest := s[NextLine(s)..];
    assert rest == [] && SplitLines(rest) == [];
    assert SplitLines(s) == [line];
    ParseOne(line);
  }

  lemma TwoLines(file: Bytes)
    requires file == [97, NEWLINE, 98, NEWLINE]
    ensures Parse(Echo, file) == [[97], [98]] && Parse(Echo, file[0..2]) == [[97]]
  {
    OneLine(97);
    OneLine(98);
    assert file == [97, NEWLINE] + [98, NEWLINE] && file[0..2] == [97, NEWLINE];
    ParseAdditive(Echo, [97, NEWLINE], [98, NEWLINE]);
  }

  lemma OneLine(x: Byte)
    requires x != NEWLINE && x != RETURN
    ensures Parse(Echo, [x, NEWLINE]) == [[x]]
  {
    var line: Bytes := [x, NEWLINE];
    assert line[1..][0] == NEWLINE;
    assert LineEnd(line) == 1 && line[..1] == [x];
    OneEvent(line, [x]);
  }
}
