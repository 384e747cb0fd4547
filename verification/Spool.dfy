/** The spooled body of a streamed response, cut off at a limit (internal/logging/request_logger.go). */
module Spool {
  import opened Wrappers

  const DEFAULT_LIMIT := 262144

  function Limit(limit: int): (r: nat)
    ensures r > 0
  {
    if limit <= 0 then DEFAULT_LIMIT else limit
  }

  /** The file, the number of body bytes in it, and whether the notice was written. `notice` words it for a limit. */
  datatype Spooled = Spooled(file: string, bodyBytes: nat, truncated: bool)

  const EMPTY := Spooled("", 0, false)

  function Concat(chunks: seq<string>): string {
    if chunks == [] then "" else Concat(chunks[..|chunks| - 1]) + chunks[|chunks| - 1]
  }

  /** The first bytes of the body, and the notice once if there are more. */
  function Cut(body: string, limit: nat, notice: nat -> string): string
    requires limit > 0
  {
    if |body| <= limit then body else body[..limit] + "\n\n" + notice(limit) + "\n"
  }

  /** The spool holds exactly the cut body. */
  ghost predicate Holds(s: Spooled, body: string, limit: nat, notice: nat -> string)
    requires limit > 0
  {
    s.file == Cut(body, limit, notice) && s.bodyBytes == Min(|body|, limit) && s.truncated == (|body| > limit)
  }

  class Writer {
    const bodyLimit: int
    const notice: nat -> string
    var file: string
    var bodyBytes: nat
    var bodyTruncated: bool

    ghost function State(): Spooled
      reads this
    {
      Spooled(file, bodyBytes, bodyTruncated)
    }

    constructor (limit: int, notice: nat -> string)
      ensures State() == EMPTY && bodyLimit == limit && this.notice == notice
    {
      bodyLimit := limit;
      this.notice := notice;
      file, bodyBytes, bodyTruncated := "", 0, false;
    }

    method WriteStreamingTruncationNotice(limit: nat)
      modifies this`file, this`bodyTruncated
      ensures bodyTruncated
      ensures file ==
        old(file) + if old(bodyTruncated) then "" else (if bodyBytes > 0 then "\n\n" else "") + notice(limit) + "\n"
    {
      if bodyTruncated {
        return;
      }
      var text := if bodyBytes > 0 then "\n\n" else "";
      text := text + notice(limit) + "\n";
      file := file + text;
      bodyTruncated := true;
    }

    /** Appends one chunk; `body` is what was offered before. */
    method WriteChunk(chunk: string, ghost body: string)
      requires Holds(State(), body, Limit(bodyLimit), notice)
      modifies this
      ensures Holds(State(), body + chunk, Limit(bodyLimit), notice)
    {
      if |chunk| == 0 {
        assert body + chunk == body;
        return;
      }
      var limit := Limit(bodyLimit);
      if bodyBytes >= limit {
        assert (body + chunk)[..limit] == body[..limit];
        assert |body| == limit ==> body[..limit] == body;
        WriteStreamingTruncationNotice(limit);
        CutMore(body, chunk, limit, notice);
        return;
      }
      var remaining := limit - bodyBytes;
      var toWrite := chunk;
      if |toWrite| > remaining {
        toWrite := toWrite[..remaining];
      }
      if |toWrite| > 0 {
        file := file + toWrite;
        bodyBytes := bodyBytes + |toWrite|;
      }
      if |chunk| > remaining {
        assert (body + chunk)[..limit] == body + toWrite;
        WriteStreamingTruncationNotice(limit);
        CutMore(body, chunk, limit, notice);
      }
    }

    /** The writer goroutine: every chunk of the channel in turn. */
    method WriteAll(chunks: seq<string>)
      requires State() == EMPTY
      modifies this
      ensures Holds(State(), Concat(chunks), Limit(bodyLimit), notice)
    {
      assert chunks[..0] == [];
      for i := 0 to |chunks|
        invariant Holds(State(), Concat(chunks[..i]), Limit(bodyLimit), notice)
      {
        assert chunks[..i + 1][..i] == chunks[..i];
        hide Holds;
        WriteChunk(chunks[i], Concat(chunks[..i]));
      }
      assert chunks[..|chunks|] == chunks;
    }
  }

  /** What the notice is appended to, spelled out. */
  lemma CutMore(body: string, chunk: string, limit: nat, notice: nat -> string)
    requires limit > 0 && |body + chunk| > limit
    ensures Cut(body + chunk, limit, notice) == (body + chunk)[..limit] + ("\n\n" + notice(limit) + "\n")
    ensures |body| > limit ==> Cut(body + chunk, limit, notice) == Cut(body, limit, notice)
  {
    var cut := (body + chunk)[..limit];
    assert cut + "\n\n" + notice(limit) + "\n" == cut + ("\n\n" + notice(limit) + "\n");
    assert |body| > limit ==> cut == body[..limit];
  }

  /** The body comes back from the spool up to the limit, and the notice is there exactly when something is missing. */
  lemma SpoolIsFaithful(s: Spooled, body: string, limit: nat, notice: nat -> string)
    requires limit > 0 && Holds(s, body, limit, notice)
    ensures s.bodyBytes <= |s.file| && s.file[..s.bodyBytes] == body[..Min(|body|, limit)]
    ensures s.file[s.bodyBytes..] == if |body| > limit then "\n\n" + notice(limit) + "\n" else ""
  {
    if |body| > limit {
      assert body + "" == body;
      CutMore(body, "", limit, notice);
    }
  }
}
