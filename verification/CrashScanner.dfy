/**
 Looking for crash lines in a stage's output while it arrives in chunks, and what the same
 search over the whole output says.
 */
module CrashScanner {
  import opened Wrappers

  datatype CrashKind = StackOverflow | PlainCrash
  datatype Crash = Crash(kind: CrashKind, runtime: string, detail: string)

  const CARRY_MAX := 8192

  // The signature table applied to one decoded line.
  type Matcher = Bytes -> Option<Crash>

  // "[qasight]" and "[testo]"
  const OWN_PREFIXES: seq<Bytes> := [[91, 113, 97, 115, 105, 103, 104, 116, 93], [91, 116, 101, 115, 116, 111, 93]]

  // Lines the tool wrote itself are not evidence.
  function ScanLine(match_: Matcher, line: Bytes): Option<Crash> {
    if OWN_PREFIXES[0] <= line || OWN_PREFIXES[1] <= line then None else match_(line)
  }

  function Prefer(current: Option<Crash>, found: Crash): Option<Crash> {
    if current.None? || (current.value.kind.PlainCrash? && found.kind.StackOverflow?)
    then Some(found) else current
  }

  predicate Settled(found: Option<Crash>) {
    found.Some? && found.value.kind.StackOverflow?
  }

  // One step of the scan; nothing changes once a stack overflow was found.
  function Scan(match_: Matcher, found: Option<Crash>, line: Bytes): Option<Crash> {
    if Settled(found) then found
    else
      var crash := ScanLine(match_, line);
      if crash.Some? then Prefer(found, crash.value) else found
  }

  // ---- the whole text, split at \n ----

  function LineLength(s: Bytes): (n: nat)
    ensures n <= |s| && (forall i :: 0 <= i < n ==> s[i] != NEWLINE) && (n < |s| ==> s[n] == NEWLINE)
  {
    if s == [] || s[0] == NEWLINE then 0 else 1 + LineLength(s[1..])
  }

  // The lines that a newline ends.
  function Ended(s: Bytes): seq<Bytes> {
    var n := LineLength(s);
    if n == |s| then [] else [s[..n]] + Ended(s[n + 1..])
  }

  // What follows the last newline.
  function Rest(s: Bytes): Bytes {
    var n := LineLength(s);
    if n == |s| then s else Rest(s[n + 1..])
  }

  // `split(b"\n")`
  function Split(s: Bytes): seq<Bytes> {
    Ended(s) + [Rest(s)]
  }

  function Unsplit(lines: seq<Bytes>): Bytes
    requires lines != []
  {
    if |lines| == 1 then lines[0] else lines[0] + [NEWLINE] + Unsplit(lines[1..])
  }

  /** `Split` is the one way to cut the text at its newlines. */
  lemma {:induction false} SplitIsExact(s: Bytes)
    ensures Unsplit(Split(s)) == s && forall line :: line in Split(s) ==> NEWLINE !in line
    decreases |s|
  {
    var n := LineLength(s);
    if n < |s| {
      SplitIsExact(s[n + 1..]);
      assert Split(s) == [s[..n]] + Split(s[n + 1..]);
      assert Split(s)[1..] == Split(s[n + 1..]);
    }
  }

  function ScanAll(match_: Matcher, found: Option<Crash>, lines: seq<Bytes>): Option<Crash>
    decreases |lines|
  {
    if lines == [] then found else ScanAll(match_, Scan(match_, found, lines[0]), lines[1..])
  }

  /** The answer for a whole output. */
  function CrashOf(match_: Matcher, text: Bytes): Option<Crash> {
    ScanAll(match_, None, Split(text))
  }

  // The first line that says a stack overflowed wins; without one, the first crash line. A line
  // that starts like the tool's own does not count.
  ghost predicate IsAnswer(match_: Matcher, lines: seq<Bytes>, answer: Option<Crash>) {
    if exists i :: OverflowAt(match_, lines, i) then
      exists i :: OverflowAt(match_, lines, i) && answer == match_(lines[i])
                  && forall j :: 0 <= j < i ==> !OverflowAt(match_, lines, j)
    else if exists i :: CrashAt(match_, lines, i) then
      exists i :: CrashAt(match_, lines, i) && answer == match_(lines[i])
                  && forall j :: 0 <= j < i ==> !CrashAt(match_, lines, j)
    else answer == None
  }

  predicate CrashAt(match_: Matcher, lines: seq<Bytes>, i: int) {
    && 0 <= i < |lines| && match_(lines[i]).Some?
    && forall p :: 0 <= p < |OWN_PREFIXES| ==> !(OWN_PREFIXES[p] <= lines[i])
  }

  predicate OverflowAt(match_: Matcher, lines: seq<Bytes>, i: int) {
    CrashAt(match_, lines, i) && match_(lines[i]).value.kind.StackOverflow?
  }

  lemma {:induction false} ScanAllAppend(match_: Matcher, found: Option<Crash>, a: seq<Bytes>, b: seq<Bytes>)
    ensures ScanAll(match_, found, a + b) == ScanAll(match_, ScanAll(match_, found, a), b)
    decreases |a|
  {
    if a == [] {
      assert a + b == b;
    } else {
      assert (a + b)[0] == a[0] && (a + b)[1..] == a[1..] + b;
      ScanAllAppend(match_, Scan(match_, found, a[0]), a[1..], b);
    }
  }

  lemma ScannedIs(match_: Matcher, lines: seq<Bytes>, i: nat)
    requires i < |lines|
    ensures ScanLine(match_, lines[i]) == if CrashAt(match_, lines, i) then match_(lines[i]) else None
  {
    assert |OWN_PREFIXES| == 2;
  }

  lemma {:induction false} ScanAllIsAnswer(match_: Matcher, lines: seq<Bytes>)
    ensures IsAnswer(match_, lines, ScanAll(match_, None, lines))
    decreases |lines|
  {
    if lines != [] {
      var n := |lines| - 1;
      var front := lines[..n];
      ScanAllIsAnswer(match_, front);
      assert lines == front + [lines[n]];
      var last := [lines[n]];
      ScanAllAppend(match_, None, front, last);
      assert last[0] == lines[n] && last[1..] == [];
      AnswerStep(match_, lines, ScanAll(match_, None, front));
    }
  }

  // One more line, given the answer for the lines before it.
  lemma AnswerStep(match_: Matcher, lines: seq<Bytes>, before: Option<Crash>)
    requires lines != [] && IsAnswer(match_, lines[..|lines| - 1], before)
    ensures IsAnswer(match_, lines, Scan(match_, before, lines[|lines| - 1]))
  {
    var n := |lines| - 1;
    var front := lines[..n];
    ScannedIs(match_, lines, n);
    assert forall i :: i != n ==> (CrashAt(match_, lines, i) <==> CrashAt(match_, front, i));
    assert forall i :: i != n ==> (OverflowAt(match_, lines, i) <==> OverflowAt(match_, front, i));
    if exists i :: OverflowAt(match_, front, i) {
      var i :| OverflowAt(match_, front, i) && before == match_(front[i])
               && forall j :: 0 <= j < i ==> !OverflowAt(match_, front, j);
      assert OverflowAt(match_, lines, i);
    } else if OverflowAt(match_, lines, n) {
      if before.Some? {
        var i :| CrashAt(match_, front, i) && before == match_(front[i]);
        assert !OverflowAt(match_, front, i);
      }
    } else if exists i :: CrashAt(match_, front, i) {
      var i :| CrashAt(match_, front, i) && before == match_(front[i])
               && forall j :: 0 <= j < i ==> !CrashAt(match_, front, j);
      assert CrashAt(match_, lines, i) && !OverflowAt(match_, front, i);
    } else if CrashAt(match_, lines, n) {
      assert before == None;
    }
  }

  /** What the scan answers, in words: the first stack-overflow line if any, else the first crash line. */
  lemma CrashOfIsFirst(match_: Matcher, text: Bytes)
    ensures IsAnswer(match_, Split(text), CrashOf(match_, text))
  {
    ScanAllIsAnswer(match_, Split(text));
  }

  // ---- the scanner ----

  function Carry(rest: Bytes): Bytes {
    if |rest| > CARRY_MAX then rest[|rest| - CARRY_MAX..] else rest
  }

  class Scanner {
    const match_: Matcher
    var carry: Bytes
    var found: Option<Crash>

    constructor (match_: Matcher)
      ensures carry == [] && found == None && this.match_ == match_
    {
      this.match_ := match_;
      carry, found := [], None;
    }

    method Feed(chunk: Bytes)
      modifies this
      ensures (carry, found) == Fed(match_, old(carry), old(found), chunk)
    {
      if chunk == [] || Settled(found) {
        return;
      }
      var data := carry + chunk;
      var lines := Split(data);
      carry := Carry(lines[|lines| - 1]);
      var i := 0;
      ghost var start := found;
      while i < |lines| - 1
        invariant 0 <= i < |lines| && carry == Carry(Rest(data)) && !Settled(found)
        invariant ScanAll(match_, found, Ended(data)[i..]) == ScanAll(match_, start, Ended(data))
      {
        assert Ended(data)[i..][0] == lines[i] && Ended(data)[i..][1..] == Ended(data)[i + 1..];
        var crash := ScanLine(match_, lines[i]);
        if crash.Some? {
          found := Prefer(found, crash.value);
        }
        if Settled(found) {
          SettledStays(match_, found, Ended(data)[i + 1..]);
          carry := [];
          return;
        }
        i := i + 1;
      }
      assert Ended(data)[i..] == [];
    }

    method Finish() returns (crash: Option<Crash>)
      modifies this
      ensures carry == [] && found == crash == Finished(match_, old(carry), old(found))
    {
      if carry != [] && !Settled(found) {
        var last := ScanLine(match_, carry);
        if last.Some? {
          found := Prefer(found, last.value);
        }
      }
      carry := [];
      crash := found;
    }
  }

  function Fed(match_: Matcher, carry: Bytes, found: Option<Crash>, chunk: Bytes): (Bytes, Option<Crash>) {
    if chunk == [] || Settled(found) then (carry, found)
    else
      var data := carry + chunk;
      var found' := ScanAll(match_, found, Ended(data));
      (if Settled(found') then [] else Carry(Rest(data)), found')
  }

  function Finished(match_: Matcher, carry: Bytes, found: Option<Crash>): Option<Crash> {
    if carry == [] then found else Scan(match_, found, carry)
  }

  function FedAll(match_: Matcher, carry: Bytes, found: Option<Crash>, chunks: seq<Bytes>): (Bytes, Option<Crash>)
    decreases |chunks|
  {
    if chunks == [] then (carry, found)
    else
      var (c, f) := Fed(match_, carry, found, chunks[0]);
      FedAll(match_, c, f, chunks[1..])
  }

  // The answer after feeding the chunks to a new scanner and finishing it.
  function Streamed(match_: Matcher, chunks: seq<Bytes>): Option<Crash> {
    var (c, f) := FedAll(match_, [], None, chunks);
    Finished(match_, c, f)
  }

  lemma {:induction false} SettledStays(match_: Matcher, found: Option<Crash>, lines: seq<Bytes>)
    requires Settled(found)
    ensures ScanAll(match_, found, lines) == found
  {
    if lines != [] {
      SettledStays(match_, found, lines[1..]);
    }
  }

  lemma {:induction false} SplitAppend(a: Bytes, b: Bytes)
    ensures Ended(a + b) == Ended(a) + Ended(Rest(a) + b) && Rest(a + b) == Rest(Rest(a) + b)
    decreases |a|
  {
    var n := LineLength(a);
    if n < |a| {
      var rest := a[n + 1..];
      FirstLineAppend(a, b, rest);
      SplitAppend(rest, b);
      InFront([a[..n]], Ended(rest), Ended(Rest(rest) + b), Ended(a), Ended(rest + b));
    }
  }

  lemma FirstLineAppend(a: Bytes, b: Bytes, rest: Bytes)
    requires LineLength(a) < |a| && rest == a[LineLength(a) + 1..]
    ensures Ended(a + b) == [a[..LineLength(a)]] + Ended(rest + b) && Rest(a + b) == Rest(rest + b)
  {
    var n := LineLength(a);
    LineLengthPrefix(a, b);
    assert (a + b)[..n] == a[..n] && (a + b)[n + 1..] == rest + b;
    FirstLineIs(a + b, n, a[..n], rest + b);
  }

  lemma FirstLineIs(s: Bytes, m: nat, first: Bytes, rest: Bytes)
    requires m == LineLength(s) < |s| && first == s[..m] && rest == s[m + 1..]
    ensures Ended(s) == [first] + Ended(rest) && Rest(s) == Rest(rest)
  {
  }

  lemma SplitRest(a: Bytes, b: Bytes)
    ensures Split(a + b) == Ended(a) + Split(Rest(a) + b)
  {
    SplitAppend(a, b);
    var rest := Rest(a) + b;
    InFront(Ended(a), Ended(rest), [Rest(rest)], Ended(a + b), Split(rest));
  }

  lemma {:induction false} LineLengthPrefix(a: Bytes, b: Bytes)
    requires LineLength(a) < |a|
    ensures LineLength(a + b) == LineLength(a)
  {
    assert (a + b)[0] == a[0];
    if a[0] != NEWLINE {
      assert (a + b)[1..] == a[1..] + b;
      LineLengthPrefix(a[1..], b);
    }
  }

  // The lines as the scanner sees them, with `open` carried over from earlier chunks.
  function Scanned(open: Bytes, chunks: seq<Bytes>): seq<Bytes>
    decreases |chunks|
  {
    if chunks == [] then [open]
    else
      var data := open + chunks[0];
      Ended(data) + Scanned(Carry(Rest(data)), chunks[1..])
  }

  // The scanner after some chunks, against the lines it saw.
  lemma {:induction false} FedAllIs(match_: Matcher, open: Bytes, found: Option<Crash>, chunks: seq<Bytes>)
    requires NEWLINE !in open && |open| <= CARRY_MAX && !Settled(found)
    requires match_([]) == None
    ensures var (c, f) := FedAll(match_, open, found, chunks);
            Finished(match_, c, f) == ScanAll(match_, found, Scanned(open, chunks))
    decreases |chunks|
  {
    if chunks == [] {
      FinishedIs(match_, open, found);
    } else {
      var data := open + chunks[0];
      var carry, seen := Carry(Rest(data)), Scanned(Carry(Rest(data)), chunks[1..]);
      ScanAllAppend(match_, found, Ended(data), seen);
      RestIsOpen(data);
      var found' := ScanAll(match_, found, Ended(data));
      if chunks[0] == [] {
        assert data == open;
        OpenLine(open);
        FedAllIs(match_, open, found, chunks[1..]);
      } else if Settled(found') {
        SettledStays(match_, found', seen);
        FedSettled(match_, [], found', chunks[1..]);
      } else {
        FedAllIs(match_, carry, found', chunks[1..]);
      }
    }
  }

  lemma {:induction false} FedSettled(match_: Matcher, carry: Bytes, found: Option<Crash>, chunks: seq<Bytes>)
    requires Settled(found)
    ensures FedAll(match_, carry, found, chunks) == (carry, found)
    decreases |chunks|
  {
    if chunks != [] {
      FedSettled(match_, carry, found, chunks[1..]);
    }
  }

  lemma OpenLine(open: Bytes)
    requires NEWLINE !in open
    ensures Ended(open) == [] && Rest(open) == open
  {
    LineLengthAfter(open, []);
    assert open + [] == open;
  }

  lemma {:induction false} RestIsOpen(s: Bytes)
    ensures NEWLINE !in Rest(s)
    decreases |s|
  {
    if LineLength(s) < |s| {
      RestIsOpen(s[LineLength(s) + 1..]);
    }
  }

  lemma FinishedIs(match_: Matcher, open: Bytes, found: Option<Crash>)
    requires match_([]) == None
    ensures Finished(match_, open, found) == ScanAll(match_, found, [open])
  {
    var one := [open];
    assert one[0] == open && one[1..] == [];
  }

  // What is left of a line whose open end was cut down to the carry limit now and then.
  predicate IsClipped(seen: Bytes, line: Bytes) {
    && |seen| <= |line| && seen == line[|line| - |seen|..]
    && (|line| <= CARRY_MAX ==> seen == line) && (|line| > CARRY_MAX ==> |seen| >= CARRY_MAX)
  }

  ghost predicate AreClipped(seen: seq<Bytes>, lines: seq<Bytes>) {
    |seen| == |lines| && forall i :: 0 <= i < |lines| ==> IsClipped(seen[i], lines[i])
  }

  lemma ClippedMore(seen: Bytes, line: Bytes, b: Bytes)
    requires IsClipped(seen, line)
    ensures IsClipped(seen + b, line + b)
  {
    assert line == line[..|line| - |seen|] + seen;
    assert (line + b)[|line| - |seen|..] == seen + b;
  }

  lemma CarryClips(seen: Bytes, line: Bytes)
    requires IsClipped(seen, line)
    ensures IsClipped(Carry(seen), line)
  {
  }

  // An open line goes on to the first newline of what follows it.
  lemma StaysOpen(open: Bytes, b: Bytes)
    requires NEWLINE !in open && LineLength(b) == |b|
    ensures Ended(open + b) == [] && Rest(open + b) == open + b
  {
    LineLengthAfter(open, b);
  }

  lemma OpenEndsAt(open: Bytes, b: Bytes, rest: Bytes)
    requires NEWLINE !in open && LineLength(b) < |b| && rest == b[LineLength(b) + 1..]
    ensures Ended(open + b) == [open + b[..LineLength(b)]] + Ended(rest) && Rest(open + b) == Rest(rest)
  {
    var m, first := OpenSlices(open, b, rest);
    FirstLineIs(open + b, m, first, rest);
  }

  lemma OpenSlices(open: Bytes, b: Bytes, rest: Bytes) returns (m: nat, first: Bytes)
    requires NEWLINE !in open && LineLength(b) < |b| && rest == b[LineLength(b) + 1..]
    ensures m == LineLength(open + b) < |open + b| && first == open + b[..LineLength(b)]
    ensures first == (open + b)[..m] && rest == (open + b)[m + 1..]
  {
    var n := LineLength(b);
    LineLengthAfter(open, b);
    m, first := |open| + n, open + b[..n];
    SliceBehind(open, b, n);
  }

  lemma SliceBehind(open: Bytes, b: Bytes, n: nat)
    requires n < |b|
    ensures (open + b)[..|open| + n] == open + b[..n] && (open + b)[|open| + n + 1..] == b[n + 1..]
  {
  }

  lemma {:induction false} LineLengthAfter(open: Bytes, b: Bytes)
    requires NEWLINE !in open
    ensures LineLength(open + b) == |open| + LineLength(b)
  {
    if open == [] {
      assert open + b == b;
    } else {
      assert (open + b)[0] == open[0] && (open + b)[1..] == open[1..] + b;
      LineLengthAfter(open[1..], b);
    }
  }

  lemma Unclipped(line: Bytes)
    ensures IsClipped(line, line)
  {
  }

  // `seen` is what was carried over of the open line `open`.
  lemma {:induction false} ScannedAreClipped(seen: Bytes, open: Bytes, chunks: seq<Bytes>)
    requires IsClipped(seen, open) && NEWLINE !in open && NEWLINE !in seen
    ensures AreClipped(Scanned(seen, chunks), Split(open + Join(chunks)))
    decreases |chunks|
  {
    if chunks == [] {
      assert open + Join(chunks) == open;
      OpenLine(open);
    } else {
      var b, tail := chunks[0], Join(chunks[1..]);
      assert open + Join(chunks) == (open + b) + tail;
      SplitRest(open + b, tail);
      OpenEnds(seen, open, b);
      ScannedAreClipped(Carry(Rest(seen + b)), Rest(open + b), chunks[1..]);
      ClippedJoin(Ended(seen + b), Ended(open + b), Scanned(Carry(Rest(seen + b)), chunks[1..]),
                  Split(Rest(open + b) + tail));
    }
  }

  // One chunk: only the first line that ends in it was open before.
  lemma OpenEnds(seen: Bytes, open: Bytes, b: Bytes)
    requires IsClipped(seen, open) && NEWLINE !in open && NEWLINE !in seen
    ensures var s, a := Ended(seen + b), Ended(open + b);
            |s| == |a| && (forall i :: 0 < i < |a| ==> s[i] == a[i]) && (a != [] ==> IsClipped(s[0], a[0]))
    ensures IsClipped(Carry(Rest(seen + b)), Rest(open + b))
    ensures NEWLINE !in Carry(Rest(seen + b)) && NEWLINE !in Rest(open + b)
  {
    RestIsOpen(open + b);
    RestIsOpen(seen + b);
    if LineLength(b) == |b| {
      StaysOpen(open, b);
      StaysOpen(seen, b);
      ClippedMore(seen, open, b);
    } else {
      var rest := b[LineLength(b) + 1..];
      OpenEndsAt(open, b, rest);
      OpenEndsAt(seen, b, rest);
      ClippedMore(seen, open, b[..LineLength(b)]);
      Unclipped(Rest(open + b));
    }
    CarryClips(Rest(seen + b), Rest(open + b));
  }

  lemma ClippedJoin(s: seq<Bytes>, a: seq<Bytes>, t: seq<Bytes>, b: seq<Bytes>)
    requires |s| == |a| && (forall i :: 0 < i < |a| ==> s[i] == a[i]) && (a != [] ==> IsClipped(s[0], a[0]))
    requires AreClipped(t, b)
    ensures AreClipped(s + t, a + b)
  {
    forall i | 0 <= i < |a| + |b| ensures IsClipped((s + t)[i], (a + b)[i]) {
      if 0 < i < |a| {
        Unclipped(a[i]);
      }
    }
  }

  /**
   However the output is cut into chunks, the scanner answers like the scan of its lines, of
   which those beyond the carry limit may have lost their start.
   */
  lemma AnyChunkingScansLines(match_: Matcher, chunks: seq<Bytes>)
    requires match_([]) == None
    ensures AreClipped(Scanned([], chunks), Split(Join(chunks)))
    ensures Streamed(match_, chunks) == ScanAll(match_, None, Scanned([], chunks))
    ensures IsAnswer(match_, Scanned([], chunks), Streamed(match_, chunks))
  {
    assert [] + Join(chunks) == Join(chunks);
    ScannedAreClipped([], [], chunks);
    FedAllIs(match_, [], None, chunks);
    ScanAllIsAnswer(match_, Scanned([], chunks));
  }

  /** When all lines fit the carry, the scanner says what a scan of the whole output says. */
  lemma LinesThatFit(match_: Matcher, chunks: seq<Bytes>)
    requires match_([]) == None && forall line <- Split(Join(chunks)) :: |line| <= CARRY_MAX
    ensures Streamed(match_, chunks) == CrashOf(match_, Join(chunks))
  {
    AnyChunkingScansLines(match_, chunks);
    Unshortened(Scanned([], chunks), Split(Join(chunks)));
  }

  lemma Unshortened(seen: seq<Bytes>, lines: seq<Bytes>)
    requires AreClipped(seen, lines) && forall line <- lines :: |line| <= CARRY_MAX
    ensures seen == lines
  {
    forall i | 0 <= i < |lines| ensures seen[i] == lines[i] {
      assert lines[i] in lines && IsClipped(seen[i], lines[i]);
    }
  }

  // At every chunk's end, the line that is still open fits the carry.
  predicate CarryFits(open: Bytes, chunks: seq<Bytes>)
    decreases |chunks|
  {
    chunks == [] || (|Rest(open + chunks[0])| <= CARRY_MAX && CarryFits(Rest(open + chunks[0]), chunks[1..]))
  }

  // A line that has lost its start stays shorter than it is.
  lemma {:induction false} LostStaysLost(seen: Bytes, open: Bytes, chunks: seq<Bytes>)
    requires NEWLINE !in seen && NEWLINE !in open && |seen| < |open|
    ensures Scanned(seen, chunks) != Split(open + Join(chunks))
    ensures |Scanned(seen, chunks)| > 0 && |Scanned(seen, chunks)[0]| < |Split(open + Join(chunks))[0]|
    decreases |chunks|
  {
    if chunks == [] {
      assert open + Join(chunks) == open;
      OpenLine(open);
    } else {
      var b, tail := chunks[0], Join(chunks[1..]);
      assert open + Join(chunks) == (open + b) + tail;
      SplitRest(open + b, tail);
      if LineLength(b) == |b| {
        StaysOpen(open, b);
        StaysOpen(seen, b);
        LostStaysLost(Carry(seen + b), open + b, chunks[1..]);
      } else {
        var rest := b[LineLength(b) + 1..];
        OpenEndsAt(open, b, rest);
        OpenEndsAt(seen, b, rest);
      }
    }
  }

  /**
   Every line, the tool's own among them, is scanned whole exactly when the open line fits the
   carry at each chunk's end. A longer line that one chunk completes is scanned whole, too.
   */
  lemma {:induction false} WholeExactly(open: Bytes, chunks: seq<Bytes>)
    requires NEWLINE !in open
    ensures Scanned(open, chunks) == Split(open + Join(chunks)) <==> CarryFits(open, chunks)
    decreases |chunks|
  {
    if chunks == [] {
      assert open + Join(chunks) == open;
      OpenLine(open);
    } else {
      var data, tail := open + chunks[0], Join(chunks[1..]);
      var rest := Rest(data);
      assert open + Join(chunks) == data + tail;
      SplitRest(data, tail);
      RestIsOpen(data);
      SameFront(Ended(data), Scanned(Carry(rest), chunks[1..]), Split(rest + tail));
      if |rest| > CARRY_MAX {
        LostStaysLost(Carry(rest), rest, chunks[1..]);
      } else {
        WholeExactly(rest, chunks[1..]);
      }
    }
  }

  /** Then the scanner says what a scan of the whole output says. */
  lemma ChunkingIsInvisible(match_: Matcher, chunks: seq<Bytes>)
    requires match_([]) == None && CarryFits([], chunks)
    ensures Streamed(match_, chunks) == CrashOf(match_, Join(chunks))
  {
    assert [] + Join(chunks) == Join(chunks);
    WholeExactly([], chunks);
    FedAllIs(match_, [], None, chunks);
  }

  // A matcher that goes by the first byte, and a line one byte over the limit that it matches.
  function ByFirst(crash: Crash): Matcher {
    (line: Bytes) => if line != [] && line[0] == 33 then Some(crash) else None
  }

  function LongLine(): (line: Bytes)
    ensures |line| == CARRY_MAX + 1 && line[0] == 33 && forall i :: 1 <= i <= CARRY_MAX ==> line[i] == 46
  {
    [33] + seq(CARRY_MAX, _ => 46)
  }

  // A line that is longer than the carry, in the chunks the reader hands over.
  const READ_CHUNK := 4096

  function Cut(line: Bytes): (chunks: seq<Bytes>)
    requires CARRY_MAX < |line| <= CARRY_MAX + READ_CHUNK
    ensures forall chunk <- chunks :: 0 < |chunk| <= READ_CHUNK
  {
    [line[..READ_CHUNK], line[READ_CHUNK..CARRY_MAX], line[CARRY_MAX..]]
  }

  /**
   The limit on an open line is needed: one byte more, and a chunk's end drops the start of
   the line, with whatever it said.
   */
  lemma LongOpenLineLosesItsStart(crash: Crash)
    ensures Join(Cut(LongLine())) == LongLine()
    ensures CrashOf(ByFirst(crash), LongLine()) == Some(crash)
    ensures Streamed(ByFirst(crash), Cut(LongLine())) == None
  {
    LongLineIsCut(ByFirst(crash), LongLine());
  }

  lemma LongLineIsCut(match_: Matcher, line: Bytes)
    requires NEWLINE !in line && CARRY_MAX < |line| <= CARRY_MAX + READ_CHUNK && match_([]) == None
    ensures Join(Cut(line)) == line
    ensures CrashOf(match_, line) == ScanLine(match_, line)
    ensures Streamed(match_, Cut(line)) == ScanLine(match_, line[|line| - CARRY_MAX..])
  {
    CutScanned(line);
    OneLine(match_, line);
    FedAllIs(match_, [], None, Cut(line));
    FinishedIs(match_, Carry(line), None);
  }

  lemma CutScanned(line: Bytes)
    requires NEWLINE !in line && CARRY_MAX < |line| <= CARRY_MAX + READ_CHUNK
    ensures Scanned([], Cut(line)) == [Carry(line)] && Join(Cut(line)) == line
  {
    var a, b, c := line[..READ_CHUNK], line[READ_CHUNK..CARRY_MAX], line[CARRY_MAX..];
    CutJoins(line, a, b, c);
    ThreeChunks(a, b, c);
  }

  lemma CutJoins(line: Bytes, a: Bytes, b: Bytes, c: Bytes)
    requires CARRY_MAX < |line|
    requires a == line[..READ_CHUNK] && b == line[READ_CHUNK..CARRY_MAX] && c == line[CARRY_MAX..]
    ensures a + b == line[..CARRY_MAX] && a + b + c == line
  {
  }

  lemma OneLine(match_: Matcher, line: Bytes)
    requires NEWLINE !in line && match_([]) == None
    ensures CrashOf(match_, line) == ScanLine(match_, line)
  {
    OpenLine(line);
    assert Split(line) == [line];
    FinishedIs(match_, line, None);
  }

  lemma StillOpen(open: Bytes, chunks: seq<Bytes>, rest: seq<Bytes>)
    requires chunks != [] && NEWLINE !in open + chunks[0] && rest == chunks[1..]
    ensures Scanned(open, chunks) == Scanned(Carry(open + chunks[0]), rest)
  {
    OpenLine(open + chunks[0]);
  }

  lemma ThreeChunks(a: Bytes, b: Bytes, c: Bytes)
    requires NEWLINE !in a + b + c && |a + b| == CARRY_MAX
    ensures Scanned([], [a, b, c]) == [Carry(a + b + c)] && Join([a, b, c]) == a + b + c
  {
    JoinThree(a, b, c);
    assert forall x :: x in a || x in a + b ==> x in a + b + c;
    assert [] + a == a;
    StillOpen([], [a, b, c], [b, c]);
    StillOpen(a, [b, c], [c]);
    StillOpen(a + b, [c], []);
  }

  lemma JoinThree(a: Bytes, b: Bytes, c: Bytes)
    ensures Join([a, b, c]) == a + b + c
  {
    var ab, bc, last := [a, b, c], [b, c], [c];
    assert ab[1..] == bc && bc[1..] == last && last[1..] == [];
    assert Join(last) == c;
    assert Join(bc) == b + c;
    InFront(a, b, c, a + b, b + c);
  }

  // A line of the tool's own, as long as the carry allows behind its prefix.
  function LongToolLine(): (line: Bytes)
    ensures |line| == CARRY_MAX + 9 && OWN_PREFIXES[0] <= line && line[9..] == seq(CARRY_MAX, _ => 33)
    ensures NEWLINE !in line
  {
    OWN_PREFIXES[0] + seq(CARRY_MAX, _ => 33)
  }

  /** A line of the tool's own that is too long loses the prefix it is ignored for. */
  lemma LongToolLineIsScanned(crash: Crash)
    ensures Join(Cut(LongToolLine())) == LongToolLine()
    ensures CrashOf(ByFirst(crash), LongToolLine()) == None
    ensures Streamed(ByFirst(crash), Cut(LongToolLine())) == Some(crash)
  {
    LongLineIsCut(ByFirst(crash), LongToolLine());
    assert LongToolLine()[9..][0] == 33;
  }
}
