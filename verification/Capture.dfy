/**
 * Reading response ids off an event stream as its chunks pass by (internal/api/cpams_routes.go). Lines end in a
 * line feed and only data fields matter, a subset of section 9.2.5 of the WHATWG HTML standard.
 */
module Capture {
  import opened Wrappers

  /** At most this many bytes of an unfinished line are kept. */
  const LIMIT := 256 * 1024

  const DATA := "data:"
  const DONE := "[DONE]"

  /** How bytes are trimmed and what is read off a payload; no id is the empty string. */
  datatype Reader = Reader(trim: string -> string, mismatch: string -> bool, id: string -> string)

  datatype Captured = Captured(line: string, ids: set<string>, mismatch: bool)

  const NOTHING := Captured("", {}, false)

  // ---------- lines ----------

  /** Where the first line feed is, or the length of the text. */
  function FirstFeed(text: string): (k: nat)
    ensures k <= |text| && (k < |text| ==> text[k] == '\n') && '\n' !in text[..k]
  {
    if text == "" || text[0] == '\n' then 0 else 1 + FirstFeed(text[1..])
  }

  /** The finished lines of a text, with their line feeds. */
  function Lines(text: string): seq<string> {
    var k := FirstFeed(text);
    if k == |text| then [] else [text[..k + 1]] + Lines(text[k + 1..])
  }

  /** What follows the last line feed. */
  function Rest(text: string): (r: string)
    ensures |r| <= |text| && '\n' !in r
  {
    var k := FirstFeed(text);
    if k == |text| then text else Rest(text[k + 1..])
  }

  lemma {:induction false} FirstFeedIs(text: string, k: nat)
    requires k < |text| && text[k] == '\n' && '\n' !in text[..k]
    ensures FirstFeed(text) == k
  {
    if k > 0 {
      assert text[1..][..k - 1] == text[..k][1..];
      FirstFeedIs(text[1..], k - 1);
    }
  }

  lemma NoFeed(text: string)
    requires '\n' !in text
    ensures FirstFeed(text) == |text|
  {
  }

  lemma LinesSplit(text: string, k: nat)
    requires k == FirstFeed(text) < |text|
    ensures Lines(text) == [text[..k + 1]] + Lines(text[k + 1..]) && Rest(text) == Rest(text[k + 1..])
  {
    hide FirstFeed;
  }

  lemma NothingFinished(text: string)
    requires FirstFeed(text) == |text|
    ensures Lines(text) == [] && Rest(text) == text
  {
  }

  /** Cutting a text in two only moves the cut line into the second part. */
  lemma {:induction false} LinesOfParts(a: string, b: string)
    ensures Lines(a + b) == Lines(a) + Lines(Rest(a) + b)
    ensures Rest(a + b) == Rest(Rest(a) + b)
    decreases |a|
  {
    hide *;
    var k := FirstFeed(a);
    if k < |a| {
      var rest := a[k + 1..];
      assert (a + b)[..k] == a[..k];
      FirstFeedIs(a + b, k);
      assert (a + b)[..k + 1] == a[..k + 1] && (a + b)[k + 1..] == rest + b;
      LinesSplit(a, k);
      LinesSplit(a + b, k);
      LinesOfParts(rest, b);
    } else {
      NothingFinished(a);
    }
  }

  // ---------- payloads ----------

  /** The payload of a line, if it carries one. */
  function Payload(p: Reader, raw: string): Option<string> {
    var line := p.trim(raw);
    if line == "" || !(DATA <= line) then None
    else
      var payload := p.trim(line[5..]);
      if payload == "" || payload == DONE then None else Some(payload)
  }

  function TakeLine(p: Reader, s: Captured, raw: string): Captured {
    var payload := Payload(p, raw);
    if payload.None? then s
    else
      var id := p.id(payload.value);
      s.(mismatch := s.mismatch || p.mismatch(payload.value), ids := if id != "" then s.ids + {id} else s.ids)
  }

  function TakeLines(p: Reader, s: Captured, lines: seq<string>): Captured
    decreases |lines|
  {
    if lines == [] then s else TakeLines(p, TakeLine(p, s, lines[0]), lines[1..])
  }

  /** Reading a whole text line by line, keeping the unfinished last line. */
  function ReadText(p: Reader, s: Captured, text: string): Captured {
    TakeLines(p, s, Lines(text)).(line := Rest(text))
  }

  lemma {:induction false} TakeLinesOfParts(p: Reader, s: Captured, a: seq<string>, b: seq<string>)
    ensures TakeLines(p, s, a + b) == TakeLines(p, TakeLines(p, s, a), b)
    decreases |a|
  {
    if a == [] {
      assert a + b == b;
    } else {
      assert (a + b)[1..] == a[1..] + b;
      TakeLinesOfParts(p, TakeLine(p, s, a[0]), a[1..], b);
    }
  }

  lemma {:induction false} TakeLinesKeepsLine(p: Reader, s: Captured, lines: seq<string>, line: string)
    ensures TakeLines(p, s.(line := line), lines) == TakeLines(p, s, lines).(line := line)
    decreases |lines|
  {
    if lines != [] {
      assert TakeLine(p, s.(line := line), lines[0]) == TakeLine(p, s, lines[0]).(line := line);
      TakeLinesKeepsLine(p, TakeLine(p, s, lines[0]), lines[1..], line);
    }
  }

  // ---------- chunks ----------

  /** What one chunk does: whatever exceeds the limit is dropped. */
  function Feed(p: Reader, s: Captured, data: string): (r: Captured)
    requires |s.line| <= LIMIT
    ensures |r.line| <= LIMIT && '\n' !in r.line
  {
    ReadText(p, s, s.line + data[..Min(|data|, LIMIT - |s.line|)])
  }

  /** Every chunk fits beside the line it continues. */
  ghost predicate Fits(p: Reader, s: Captured, chunks: seq<string>)
    decreases |chunks|
  {
    chunks == [] || (|s.line| + |chunks[0]| <= LIMIT && Fits(p, Feed(p, s, chunks[0]), chunks[1..]))
  }

  function FeedAll(p: Reader, s: Captured, chunks: seq<string>): Captured
    requires |s.line| <= LIMIT
    decreases |chunks|
  {
    if chunks == [] then s else FeedAll(p, Feed(p, s, chunks[0]), chunks[1..])
  }

  function Concat(chunks: seq<string>): string {
    if chunks == [] then "" else chunks[0] + Concat(chunks[1..])
  }

  /** Reading `a` and then the unfinished line with `b` is reading `a + b`. */
  lemma ReadTextOfParts(p: Reader, s: Captured, a: string, b: string)
    ensures ReadText(p, ReadText(p, s, a), Rest(a) + b) == ReadText(p, s, a + b)
  {
    hide Lines, Rest, TakeLines, TakeLine;
    LinesOfParts(a, b);
    TakeLinesOfParts(p, s, Lines(a), Lines(Rest(a) + b));
    TakeLinesKeepsLine(p, TakeLines(p, s, Lines(a)), Lines(Rest(a) + b), Rest(a));
  }

  /** As much of a chunk as the buffered line leaves room for. */
  function Room(s: Captured, data: string): string
    requires |s.line| <= LIMIT
  {
    data[..Min(|data|, LIMIT - |s.line|)]
  }

  /** The bytes taken in over all chunks. */
  function Taken(p: Reader, s: Captured, chunks: seq<string>): string
    requires |s.line| <= LIMIT
    decreases |chunks|
  {
    if chunks == [] then "" else Room(s, chunks[0]) + Taken(p, Feed(p, s, chunks[0]), chunks[1..])
  }

  lemma FedOne(p: Reader, s: Captured, text: string, chunk: string)
    requires |Rest(text)| <= LIMIT
    ensures ReadText(p, s, text).line == Rest(text)
    ensures Feed(p, ReadText(p, s, text), chunk) == ReadText(p, s, text + Room(ReadText(p, s, text), chunk))
  {
    hide Rest, Lines, TakeLines;
    ReadTextOfParts(p, s, text, Room(ReadText(p, s, text), chunk));
  }

  lemma {:induction false} FedAll(p: Reader, s: Captured, text: string, chunks: seq<string>)
    requires |Rest(text)| <= LIMIT
    ensures |ReadText(p, s, text).line| <= LIMIT
    ensures FeedAll(p, ReadText(p, s, text), chunks) == ReadText(p, s, text + Taken(p, ReadText(p, s, text), chunks))
    decreases |chunks|
  {
    RestOf(p, s, text);
    hide Feed, ReadText, Rest, Room;
    var t := ReadText(p, s, text);
    if chunks == [] {
      assert text + Taken(p, t, chunks) == text;
    } else {
      FedOne(p, s, text, chunks[0]);
      var more := text + Room(t, chunks[0]);
      assert text + Taken(p, t, chunks) == more + Taken(p, Feed(p, t, chunks[0]), chunks[1..]);
      RestOf(p, s, more);
      FedAll(p, s, more, chunks[1..]);
    }
  }

  lemma RestOf(p: Reader, s: Captured, text: string)
    ensures ReadText(p, s, text).line == Rest(text)
  {
  }

  /** Whatever the chunks, the capture is that of the bytes taken in, read line by line. */
  lemma CaptureReadsTaken(p: Reader, chunks: seq<string>)
    ensures FeedAll(p, NOTHING, chunks) == ReadText(p, NOTHING, Taken(p, NOTHING, chunks))
  {
    assert ReadText(p, NOTHING, "") == NOTHING;
    assert "" + Taken(p, NOTHING, chunks) == Taken(p, NOTHING, chunks);
    FedAll(p, NOTHING, "", chunks);
  }

  lemma SameTail(a: string, b: string, x: string, y: string)
    requires |a| <= |b| && |x| <= |y|
    ensures a + x == b + y <==> a == b[..|a|] && |a| == |b| && x == y
  {
    if a + x == b + y {
      assert |a| + |x| == |b| + |y|;
      assert (a + x)[..|a|] == a && (b + y)[..|b|] == b && (a + x)[|a|..] == x && (b + y)[|b|..] == y;
    }
    assert |a| == |b| ==> b[..|a|] == b;
  }

  /** Nothing is dropped if and only if every chunk fits beside the line it continues. */
  lemma {:induction false} AllTakenExactly(p: Reader, s: Captured, chunks: seq<string>)
    requires |s.line| <= LIMIT
    ensures |Taken(p, s, chunks)| <= |Concat(chunks)|
    ensures Taken(p, s, chunks) == Concat(chunks) <==> Fits(p, s, chunks)
    decreases |chunks|
  {
    if chunks != [] {
      hide Feed;
      var c, t := chunks[0], Feed(p, s, chunks[0]);
      AllTakenExactly(p, t, chunks[1..]);
      SameTail(Room(s, c), c, Taken(p, t, chunks[1..]), Concat(chunks[1..]));
    }
  }

  /**
   * While every chunk fits, capturing does not depend on how the response is cut: the ids, the mismatch flag and
   * the buffered line are those of the whole text read line by line.
   */
  lemma ChunkingDoesNotMatter(p: Reader, chunks: seq<string>)
    requires Fits(p, NOTHING, chunks)
    ensures FeedAll(p, NOTHING, chunks) == ReadText(p, NOTHING, Concat(chunks))
  {
    CaptureReadsTaken(p, chunks);
    AllTakenExactly(p, NOTHING, chunks);
  }

  /** The capture of a text: an id is found exactly when some line carries it, and so for the mismatch. */
  lemma {:induction false} TakenLines(p: Reader, s: Captured, lines: seq<string>, id: string)
    ensures id in TakeLines(p, s, lines).ids <==> id in s.ids || Carries(p, lines, id)
    ensures TakeLines(p, s, lines).mismatch <==> s.mismatch || Mismatches(p, lines)
    decreases |lines|
  {
    if lines != [] {
      TakenLines(p, TakeLine(p, s, lines[0]), lines[1..], id);
      assert lines == [lines[0]] + lines[1..];
      hide Payload;
    }
  }

  ghost predicate Carries(p: Reader, lines: seq<string>, id: string) {
    id != "" && exists l :: l in lines && Payload(p, l).Some? && p.id(Payload(p, l).value) == id
  }

  ghost predicate Mismatches(p: Reader, lines: seq<string>) {
    exists l :: l in lines && Payload(p, l).Some? && p.mismatch(Payload(p, l).value)
  }

  lemma ReadTextExactly(p: Reader, text: string, id: string)
    ensures id in ReadText(p, NOTHING, text).ids <==> Carries(p, Lines(text), id)
    ensures ReadText(p, NOTHING, text).mismatch <==> Mismatches(p, Lines(text))
  {
    TakenLines(p, NOTHING, Lines(text), id);
  }

  // ---------- beyond the limit ----------

  /** A chunk that does not fit loses its tail: a full line takes nothing in any more, whatever comes. */
  lemma {:induction false} FullLineIsStuck(p: Reader, s: Captured, chunks: seq<string>)
    requires |s.line| == LIMIT && '\n' !in s.line
    ensures FeedAll(p, s, chunks) == s
    decreases |chunks|
  {
    if chunks != [] {
      assert s.line + chunks[0][..0] == s.line;
      NoFeed(s.line);
      FullLineIsStuck(p, s, chunks[1..]);
    }
  }

  lemma OversizedLine(p: Reader, long: string)
    requires |long| >= LIMIT && '\n' !in long
    ensures Feed(p, NOTHING, long) == NOTHING.(line := long[..LIMIT])
  {
    assert "" + long[..LIMIT] == long[..LIMIT];
    NoFeed(long[..LIMIT]);
  }

  lemma FinishedLine(p: Reader, long: string)
    requires '\n' !in long
    ensures Rest(long + "\n") == ""
  {
    var text := long + "\n";
    assert text[..|long|] == long;
    FirstFeedIs(text, |long|);
    assert text[|long| + 1..] == "";
  }

  /** Beyond the limit the cut shows: an oversized line never ends, where the same text read whole has ended it. */
  lemma ChunkingMattersBeyondLimit(p: Reader, long: string)
    requires |long| >= LIMIT && '\n' !in long
    ensures FeedAll(p, NOTHING, [long, "\n"]).line == long[..LIMIT]
    ensures ReadText(p, NOTHING, Concat([long, "\n"])).line == ""
  {
    var s := NOTHING.(line := long[..LIMIT]);
    OversizedLine(p, long);
    FullLineIsStuck(p, s, ["\n"]);
    assert [long, "\n"][1..] == ["\n"];
    assert Concat(["\n"]) == "\n";
    FinishedLine(p, long);
    hide Feed, Rest, Lines, TakeLines;
  }

  lemma ReadTextIgnoresLine(p: Reader, s: Captured, line: string, text: string)
    ensures ReadText(p, s.(line := line), text) == ReadText(p, s, text)
  {
    TakeLinesKeepsLine(p, s, Lines(text), line);
  }

  // ---------- the writer ----------

  class Writer {
    var lineBuffer: string
    var responseIDs: set<string>
    var semanticToolUseMismatch: bool

    ghost function State(): Captured
      reads this
    {
      Captured(lineBuffer, responseIDs, semanticToolUseMismatch)
    }

    ghost predicate Valid()
      reads this
    {
      |lineBuffer| <= LIMIT && '\n' !in lineBuffer
    }

    constructor ()
      ensures Valid() && State() == NOTHING
    {
      lineBuffer, responseIDs, semanticToolUseMismatch := "", {}, false;
    }

    method CaptureSSELine(p: Reader, raw: string)
      modifies this`responseIDs, this`semanticToolUseMismatch
      ensures State() == TakeLine(p, old(State()), raw)
    {
      var line := p.trim(raw);
      if |line| == 0 || !(DATA <= line) {
        return;
      }
      var payload := p.trim(line[5..]);
      if |payload| == 0 || payload == DONE {
        return;
      }
      if p.mismatch(payload) {
        semanticToolUseMismatch := true;
      }
      var id := p.id(payload);
      if id != "" {
        responseIDs := responseIDs + {id};
      }
    }

    /** One chunk: append what fits, then take every finished line off the buffer. */
    method CaptureSSE(p: Reader, data: string)
      requires Valid()
      modifies this
      ensures Valid() && State() == Feed(p, old(State()), data)
    {
      if |data| == 0 {
        NoFeed(lineBuffer);
        assert lineBuffer + data[..Min(|data|, LIMIT - |lineBuffer|)] == lineBuffer;
        return;
      }
      ghost var before, text := State(), lineBuffer + data[..Min(|data|, LIMIT - |lineBuffer|)];
      if |lineBuffer| < LIMIT {
        var remaining := LIMIT - |lineBuffer|;
        if remaining > |data| {
          remaining := |data|;
        }
        lineBuffer := lineBuffer + data[..remaining];
      }
      assert lineBuffer == text;
      hide ReadText;
      ReadTextIgnoresLine(p, before, text, text);
      Drain(p);
    }

    /** Take every finished line off the buffer. */
    method Drain(p: Reader)
      requires |lineBuffer| <= LIMIT
      modifies this
      ensures |lineBuffer| <= LIMIT
      ensures State() == ReadText(p, old(State()), old(lineBuffer))
    {
      hide TakeLine, Lines;
      var k := FirstFeed(lineBuffer);
      ghost var before, text := State(), lineBuffer;
      while k < |lineBuffer|
        invariant |lineBuffer| <= LIMIT && k == FirstFeed(lineBuffer)
        invariant ReadText(p, State(), lineBuffer) == ReadText(p, before, text)
        decreases |lineBuffer|
      {
        hide ReadText;
        ghost var rest := lineBuffer[k + 1..];
        ReadLine(p, State(), lineBuffer);
        CaptureSSELine(p, lineBuffer[..k + 1]);
        ReadTextIgnoresLine(p, State(), rest, rest);
        lineBuffer := lineBuffer[k + 1..];
        k := FirstFeed(lineBuffer);
      }
      assert Lines(lineBuffer) == [] && Rest(lineBuffer) == lineBuffer by {
        NothingFinished(lineBuffer);
      }
    }
  }

  lemma ReadLine(p: Reader, s: Captured, text: string)
    requires FirstFeed(text) < |text|
    ensures var k := FirstFeed(text); ReadText(p, s, text) == ReadText(p, TakeLine(p, s, text[..k + 1]), text[k + 1..])
  {
    var k := FirstFeed(text);
    LinesSplit(text, k);
    TakeFirst(p, s, text[..k + 1], Lines(text[k + 1..]));
    hide FirstFeed, Lines, Rest, TakeLine, TakeLines;
  }

  lemma TakeFirst(p: Reader, s: Captured, first: string, others: seq<string>)
    ensures TakeLines(p, s, [first] + others) == TakeLines(p, TakeLine(p, s, first), others)
  {
    hide TakeLine;
    assert ([first] + others)[1..] == others;
  }
}
