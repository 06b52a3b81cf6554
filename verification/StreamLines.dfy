/** The stream reader of src/agent-gateway.ts: newline-delimited frames out of arbitrary chunks.
    Chunks arrive decoded; what a line parses to is a parameter. */
module StreamLines {
  import opened Basics

  datatype Chunk = Chunk(text: string, bytes: nat)

  datatype Frame = Ignored | Progress(sequence: nat) | Final(response: Id) | Malformed

  datatype Stream = Stream(progress: seq<nat>, final: Option<Id>)

  datatype StreamError = TooLarge | LineTooLong | BadFrame | TooMuchProgress | OutOfOrder | NoFinalResult

  type Parser = string -> Frame

  const MAX_BYTES: nat := 5000000

  const MAX_LINE: nat := 256000

  const MAX_PROGRESS: nat := 1000

  // ---------------------------------------------------------------- lines of a text

  /** `indexOf('\n')`, or the length. */
  function Newline(text: string): (k: nat)
    ensures k <= |text| && (k < |text| ==> text[k] == '\n') && forall j :: 0 <= j < k ==> text[j] != '\n'
  {
    if text == [] then 0 else if text[0] == '\n' then 0 else 1 + Newline(text[1..])
  }

  function Strip(line: string): string {
    if line != [] && line[|line| - 1] == '\r' then line[..|line| - 1] else line
  }

  function Lines(text: string): seq<string>
    decreases |text|
  {
    var k := Newline(text);
    if k == |text| then [] else [Strip(text[..k])] + Lines(text[k + 1..])
  }

  /** What follows the last newline. */
  function Tail(text: string): string
    decreases |text|
  {
    var k := Newline(text);
    if k == |text| then text else Tail(text[k + 1..])
  }

  predicate Space(c: char) { c == ' ' || c == '\t' || c == '\r' || c == '\n' }

  predicate Blank(text: string) { forall i :: 0 <= i < |text| ==> Space(text[i]) }

  lemma NewlineIsFirst(text: string, k: nat)
    requires k < |text| && text[k] == '\n' && forall j :: 0 <= j < k ==> text[j] != '\n'
    ensures Newline(text) == k
  {}

  lemma NewlineOfJoin(a: string, b: string)
    ensures Newline(a) < |a| ==> Newline(a + b) == Newline(a)
  {
    if Newline(a) < |a| { NewlineIsFirst(a + b, Newline(a)); }
  }

  /** Lines already complete never change, and only the tail takes part in what comes next. */
  lemma {:induction false} LinesOfJoin(a: string, b: string)
    ensures Lines(a + b) == Lines(a) + Lines(Tail(a) + b)
    ensures Tail(a + b) == Tail(Tail(a) + b)
    decreases |a|
  {
    var k := Newline(a);
    if k < |a| {
      NewlineOfJoin(a, b);
      assert (a + b)[k + 1..] == a[k + 1..] + b && (a + b)[..k] == a[..k];
      LinesOfJoin(a[k + 1..], b);
    }
  }

  lemma {:induction false} TailIsALine(text: string) returns (i: nat)
    ensures i <= |text| && Tail(text) == text[i..] && forall j :: i <= j < |text| ==> text[j] != '\n'
    decreases |text|
  {
    var k := Newline(text);
    if k == |text| {
      i := 0;
    } else {
      var j := TailIsALine(text[k + 1..]);
      i := k + 1 + j;
      assert text[k + 1..][j..] == text[i..];
      forall m | i <= m < |text| ensures text[m] != '\n' { assert text[k + 1..][m - (k + 1)] == text[m]; }
    }
  }

  // ---------------------------------------------------------------- consuming frames

  function Consume(s: Stream, frame: Frame): Result<Stream, StreamError> {
    match frame
    case Ignored => Ok(s)
    case Malformed => Err(BadFrame)
    case Final(response) => Ok(s.(final := Some(response)))
    case Progress(n) =>
      if |s.progress| >= MAX_PROGRESS then Err(TooMuchProgress)
      else if n <= (if s.progress == [] then 0 else s.progress[|s.progress| - 1]) then Err(OutOfOrder)
      else Ok(s.(progress := s.progress + [n]))
  }

  function Feed(parse: Parser, s: Stream, lines: seq<string>): Result<Stream, StreamError>
    decreases lines
  {
    if lines == [] then Ok(s)
    else match Consume(s, parse(lines[0]))
      case Err(e) => Err(e)
      case Ok(next) => Feed(parse, next, lines[1..])
  }

  lemma {:induction false} FeedJoins(parse: Parser, s: Stream, a: seq<string>, b: seq<string>)
    ensures Feed(parse, s, a + b) == (match Feed(parse, s, a) case Err(e) => Err(e) case Ok(mid) => Feed(parse, mid, b))
    decreases a
  {
    if a == [] {
      assert a + b == b;
    } else {
      assert (a + b)[1..] == a[1..] + b;
      match Consume(s, parse(a[0]))
      case Err(_) =>
      case Ok(next) => FeedJoins(parse, next, a[1..], b);
    }
  }

  /** What a whole text means, whatever chunks it came in. */
  function Meaning(parse: Parser, text: string): Result<Stream, StreamError> {
    match Feed(parse, Stream([], None), Lines(text))
    case Err(e) => Err(e)
    case Ok(s) =>
      match (if Blank(Tail(text)) then Ok(s) else Consume(s, parse(Tail(text))))
      case Err(e) => Err(e)
      case Ok(end) => if end.final.None? then Err(NoFinalResult) else Ok(end)
  }

  function Text(chunks: seq<Chunk>): string {
    if chunks == [] then "" else Text(chunks[..|chunks| - 1]) + chunks[|chunks| - 1].text
  }

  function Size(chunks: seq<Chunk>): nat {
    if chunks == [] then 0 else Size(chunks[..|chunks| - 1]) + chunks[|chunks| - 1].bytes
  }

  /** No limit is hit: the total size, and the unfinished line after every chunk. */
  predicate WithinLimits(chunks: seq<Chunk>) {
    chunks == []
    || (WithinLimits(chunks[..|chunks| - 1]) && Size(chunks) <= MAX_BYTES && |Tail(Text(chunks))| <= MAX_LINE)
  }

  lemma {:induction false} PrefixIsWithinLimits(chunks: seq<Chunk>, k: nat)
    requires k <= |chunks| && WithinLimits(chunks)
    ensures WithinLimits(chunks[..k])
    decreases |chunks|
  {
    if k < |chunks| {
      PrefixIsWithinLimits(chunks[..|chunks| - 1], k);
      assert chunks[..|chunks| - 1][..k] == chunks[..k];
    } else {
      assert chunks[..k] == chunks;
    }
  }

  /** Feeds the complete lines of the buffer and keeps the rest. */
  method Drain(parse: Parser, s: Stream, text: string) returns (fed: Result<Stream, StreamError>, rest: string)
    ensures fed == Feed(parse, s, Lines(text))
    ensures fed.Ok? ==> rest == Tail(text)
  {
    var stream, buffer := s, text;
    while Newline(buffer) < |buffer|
      invariant Feed(parse, s, Lines(text)) == Feed(parse, stream, Lines(buffer)) && Tail(text) == Tail(buffer)
      decreases |buffer|
    {
      var k := Newline(buffer);
      var line := Strip(buffer[..k]);
      assert Lines(buffer)[0] == line && Lines(buffer)[1..] == Lines(buffer[k + 1..]);
      buffer := buffer[k + 1..];
      match Consume(stream, parse(line)) {
        case Err(e) => return Err(e), buffer;
        case Ok(next) => stream := next;
      }
    }
    return Ok(stream), buffer;
  }

  /** What the complete lines of some chunks fed. */
  function Fed(parse: Parser, chunks: seq<Chunk>): Result<Stream, StreamError> { Feed(parse, Stream([], None), Lines(Text(chunks))) }

  lemma ChunkFeeds(parse: Parser, chunks: seq<Chunk>, k: nat)
    requires k < |chunks|
    ensures var rest := Tail(Text(chunks[..k])) + chunks[k].text;
      && Tail(Text(chunks[..k + 1])) == Tail(rest)
      && Fed(parse, chunks[..k + 1]) == (match Fed(parse, chunks[..k]) case Err(e) => Err(e) case Ok(s) => Feed(parse, s, Lines(rest)))
  {
    assert chunks[..k + 1][..k] == chunks[..k];
    LinesOfJoin(Text(chunks[..k]), chunks[k].text);
    FeedJoins(parse, Stream([], None), Lines(Text(chunks[..k])), Lines(Tail(Text(chunks[..k])) + chunks[k].text));
  }

  lemma LimitsGrow(chunks: seq<Chunk>, k: nat)
    requires k < |chunks|
    ensures Size(chunks[..k + 1]) == Size(chunks[..k]) + chunks[k].bytes
    ensures WithinLimits(chunks[..k + 1]) <==>
      WithinLimits(chunks[..k]) && Size(chunks[..k + 1]) <= MAX_BYTES && |Tail(Text(chunks[..k + 1]))| <= MAX_LINE
    ensures WithinLimits(chunks) ==> WithinLimits(chunks[..k + 1])
  {
    assert chunks[..k + 1][..k] == chunks[..k];
    if WithinLimits(chunks) { PrefixIsWithinLimits(chunks, k + 1); }
  }

  /** Feeds every chunk: the stream so far and the unfinished line. */
  method FeedChunks(parse: Parser, chunks: seq<Chunk>) returns (r: Result<(Stream, string), StreamError>)
    ensures WithinLimits(chunks) ==>
      r == (match Fed(parse, chunks) case Err(e) => Err(e) case Ok(s) => Ok((s, Tail(Text(chunks)))))
    ensures !WithinLimits(chunks) ==> r.Err?
  {
    var buffer, total := "", 0;
    var stream := Stream([], None);
    for k := 0 to |chunks|
      invariant total == Size(chunks[..k]) && WithinLimits(chunks[..k])
      invariant Fed(parse, chunks[..k]) == Ok(stream) && buffer == Tail(Text(chunks[..k]))
    {
      LimitsGrow(chunks, k);
      ChunkFeeds(parse, chunks, k);
      total := total + chunks[k].bytes;
      if total > MAX_BYTES { return Err(TooLarge); }
      var fed;
      fed, buffer := Drain(parse, stream, buffer + chunks[k].text);
      if fed.Err? {
        ErrorsAreFinal(parse, chunks, k + 1);
        return Err(fed.error);
      }
      stream := fed.value;
      if |buffer| > MAX_LINE { return Err(LineTooLong); }
    }
    assert chunks[..|chunks|] == chunks;
    return Ok((stream, buffer));
  }

  /** The stream a reader accepts, or None when it refuses. */
  function Outcome(parse: Parser, chunks: seq<Chunk>): Option<Stream> {
    if WithinLimits(chunks) && Meaning(parse, Text(chunks)).Ok? then Some(Meaning(parse, Text(chunks)).value) else None
  }

  /** Within the limits the result is the meaning of the joined text: it does not depend on
      where the chunks were cut. Over a limit the stream is refused. */
  method ReadStream(parse: Parser, chunks: seq<Chunk>) returns (r: Result<Stream, StreamError>)
    ensures WithinLimits(chunks) ==> r == Meaning(parse, Text(chunks))
    ensures !WithinLimits(chunks) ==> r.Err?
    ensures Outcome(parse, chunks) == if r.Ok? then Some(r.value) else None
  {
    var fed := FeedChunks(parse, chunks);
    if fed.Err? { return Err(fed.error); }
    var stream, buffer := fed.value.0, fed.value.1;
    if !Blank(buffer) {
      match Consume(stream, parse(buffer)) {
        case Err(e) => return Err(e);
        case Ok(next) => stream := next;
      }
    }
    return if stream.final.None? then Err(NoFinalResult) else Ok(stream);
  }

  lemma {:induction false} ErrorsAreFinal(parse: Parser, chunks: seq<Chunk>, k: nat)
    requires k <= |chunks| && Fed(parse, chunks[..k]).Err?
    ensures Fed(parse, chunks) == Fed(parse, chunks[..k])
    decreases |chunks| - k
  {
    if k < |chunks| {
      ChunkFeeds(parse, chunks, k);
      ErrorsAreFinal(parse, chunks, k + 1);
    } else {
      assert chunks[..k] == chunks;
    }
  }

  // ---------------------------------------------------------------- what an accepted stream promises

  predicate Increasing(xs: seq<nat>) { forall i, j :: 0 <= i < j < |xs| ==> xs[i] < xs[j] }

  lemma {:induction false} FeedKeepsOrder(parse: Parser, s: Stream, lines: seq<string>)
    requires Increasing(s.progress) && |s.progress| <= MAX_PROGRESS && Feed(parse, s, lines).Ok?
    ensures var r := Feed(parse, s, lines).value; Increasing(r.progress) && |r.progress| <= MAX_PROGRESS && s.progress <= r.progress
    decreases lines
  {
    if lines != [] { FeedKeepsOrder(parse, Consume(s, parse(lines[0])).value, lines[1..]); }
  }

  /** Progress delivered by an accepted stream is strictly increasing and bounded. */
  lemma ProgressIsOrdered(parse: Parser, text: string)
    requires Meaning(parse, text).Ok?
    ensures Increasing(Meaning(parse, text).value.progress) && |Meaning(parse, text).value.progress| <= MAX_PROGRESS
  {
    FeedKeepsOrder(parse, Stream([], None), Lines(text));
  }

  // ---------------------------------------------------------------- the line limit

  /** No stretch of the text without a newline is longer than the limit. */
  ghost predicate ShortLines(text: string) {
    forall i, j :: Unbroken(text, i, j) ==> j - i <= MAX_LINE
  }

  predicate Unbroken(text: string, i: int, j: int) {
    0 <= i <= j <= |text| && forall m :: i <= m < j ==> text[m] != '\n'
  }

  lemma ShortLinesOfPrefix(text: string, more: string)
    requires ShortLines(text + more)
    ensures ShortLines(text)
  {
    forall i, j | Unbroken(text, i, j) ensures j - i <= MAX_LINE {
      assert forall m :: i <= m < j ==> (text + more)[m] == text[m];
      assert Unbroken(text + more, i, j);
    }
  }

  /** A text of short lines is never refused for its lines, however it is cut. */
  lemma {:induction false} ShortLinesPassAnyCut(chunks: seq<Chunk>)
    requires ShortLines(Text(chunks)) && Size(chunks) <= MAX_BYTES
    ensures WithinLimits(chunks)
  {
    if chunks != [] {
      var n := |chunks| - 1;
      ShortLinesOfPrefix(Text(chunks[..n]), chunks[n].text);
      ShortLinesPassAnyCut(chunks[..n]);
      var i := TailIsALine(Text(chunks));
      assert Unbroken(Text(chunks), i, |Text(chunks)|);
    }
  }

  /** A way to cut a text of so many bytes; no chunk has fewer bytes than characters. */
  ghost predicate Cuts(chunks: seq<Chunk>, text: string, bytes: nat) {
    && Text(chunks) == text && Size(chunks) == bytes
    && forall i :: 0 <= i < |chunks| ==> |chunks[i].text| <= chunks[i].bytes
  }

  /** A stretch without newline at the end of a text is part of its unfinished line. */
  lemma {:induction false} TailCoversTheEnd(text: string, i: nat)
    requires Unbroken(text, i, |text|)
    ensures |Tail(text)| >= |text| - i
    decreases |text|
  {
    var k := Newline(text);
    if k < |text| {
      assert k < i;
      var rest := text[k + 1..];
      forall m | i - (k + 1) <= m < |rest| ensures rest[m] != '\n' { assert rest[m] == text[m + (k + 1)]; }
      TailCoversTheEnd(rest, i - (k + 1));
    }
  }

  lemma LastChunk(chunks: seq<Chunk>, c: Chunk)
    ensures Text(chunks + [c]) == Text(chunks) + c.text && Size(chunks + [c]) == Size(chunks) + c.bytes
    ensures WithinLimits(chunks + [c]) <==>
      WithinLimits(chunks) && Size(chunks + [c]) <= MAX_BYTES && |Tail(Text(chunks + [c]))| <= MAX_LINE
  {
    assert (chunks + [c])[..|chunks|] == chunks;
  }

  lemma WholeCut(text: string, bytes: nat)
    requires |text| <= bytes <= MAX_BYTES
    ensures Cuts([Chunk(text, bytes)], text, bytes)
    ensures WithinLimits([Chunk(text, bytes)]) <==> |Tail(text)| <= MAX_LINE
  {
    LastChunk([], Chunk(text, bytes));
    assert [] + [Chunk(text, bytes)] == [Chunk(text, bytes)];
  }

  lemma CutAt(text: string, bytes: nat, j: nat) returns (cut: seq<Chunk>)
    requires j <= |text| <= bytes && |Tail(text[..j])| > MAX_LINE
    ensures Cuts(cut, text, bytes) && !WithinLimits(cut)
  {
    var first, second := Chunk(text[..j], bytes - (|text| - j)), Chunk(text[j..], |text| - j);
    cut := [first] + [second];
    LastChunk([], first);
    assert [] + [first] == [first];
    LastChunk([first], second);
  }

  lemma LongTailIsRefused(chunks: seq<Chunk>)
    requires |Tail(Text(chunks))| > MAX_LINE
    ensures !WithinLimits(chunks)
  {}

  /** For every text within the size limit: what a reader makes of it is the same for every way to
      cut it into chunks if and only if no stretch without a newline is longer than the line limit,
      or the unfinished last line is, or the text is refused for what it says. A long line that is
      terminated passes whole and is refused when the cut falls inside it. */
  lemma CutsAgreeIff(parse: Parser, text: string, bytes: nat)
    requires |text| <= bytes <= MAX_BYTES
    ensures (forall a, b :: Cuts(a, text, bytes) && Cuts(b, text, bytes) ==> Outcome(parse, a) == Outcome(parse, b))
      <==> ShortLines(text) || |Tail(text)| > MAX_LINE || Meaning(parse, text).Err?
  {
    if ShortLines(text) {
      forall a | Cuts(a, text, bytes) ensures WithinLimits(a) { ShortLinesPassAnyCut(a); }
    } else if |Tail(text)| > MAX_LINE {
      forall a | Cuts(a, text, bytes) ensures !WithinLimits(a) { LongTailIsRefused(a); }
    } else if Meaning(parse, text).Ok? {
      var i, j :| Unbroken(text, i, j) && j - i > MAX_LINE;
      assert Unbroken(text[..j], i, j);
      TailCoversTheEnd(text[..j], i);
      var cut := CutAt(text, bytes, j);
      WholeCut(text, bytes);
      assert Outcome(parse, [Chunk(text, bytes)]) != Outcome(parse, cut);
    }
  }
}
