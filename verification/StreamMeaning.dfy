/** What a stream means, told on its lines: every progress frame is delivered, the last result wins,
    and nothing else is refused. */
module StreamMeaning {
  import opened Basics
  import opened StreamLines

  // ---------------------------------------------------------------- lines

  /** The line, a newline taken off its end together with one carriage return before it. */
  predicate IsLineOf(line: string, raw: string) {
    if raw != [] && raw[|raw| - 1] == '\r' then raw == line + "\r" else raw == line
  }

  function Joined(raws: seq<string>): string {
    if raws == [] then "" else raws[0] + "\n" + Joined(raws[1..])
  }

  ghost predicate AreLines(lines: seq<string>, raws: seq<string>) {
    |raws| == |lines| && forall i :: 0 <= i < |raws| ==> '\n' !in raws[i] && IsLineOf(lines[i], raws[i])
  }

  lemma OneMoreLine(lines: seq<string>, raws: seq<string>, raw: string)
    requires AreLines(lines, raws) && '\n' !in raw
    ensures AreLines([Strip(raw)] + lines, [raw] + raws) && Joined([raw] + raws) == raw + "\n" + Joined(raws)
  {
    assert ([raw] + raws)[1..] == raws;
  }

  lemma CutAtNewline(text: string, k: nat, joined: string, tail: string)
    requires k < |text| && text[k] == '\n' && text[k + 1..] == joined + tail
    ensures text == (text[..k] + "\n" + joined) + tail
  {}

  lemma TailIsUnbroken(text: string)
    ensures '\n' !in Tail(text)
  {
    var i := TailIsALine(text);
  }

  /** A text is its lines, each ended by its newline, and a rest without one. */
  lemma {:induction false} TextIsItsLines(text: string) returns (raws: seq<string>)
    ensures AreLines(Lines(text), raws) && text == Joined(raws) + Tail(text) && '\n' !in Tail(text)
    decreases |text|
  {
    var k := Newline(text);
    TailIsUnbroken(text);
    if k == |text| {
      raws := [];
      assert Joined(raws) + Tail(text) == text;
    } else {
      var next := text[k + 1..];
      var rest := TextIsItsLines(next);
      raws := [text[..k]] + rest;
      OneMoreLine(Lines(next), rest, text[..k]);
      CutAtNewline(text, k, Joined(rest), Tail(next));
    }
  }

  // ---------------------------------------------------------------- what the lines say

  /** The sequence numbers of the progress frames, in order. */
  function Reported(parse: Parser, lines: seq<string>): seq<nat> {
    if lines == [] then []
    else
      var front := Reported(parse, lines[..|lines| - 1]);
      match parse(lines[|lines| - 1])
      case Progress(n) => front + [n]
      case _ => front
  }

  /** The result of the last result frame. */
  function LastResult(parse: Parser, lines: seq<string>): Option<Id> {
    if lines == [] then None
    else match parse(lines[|lines| - 1])
      case Final(response) => Some(response)
      case _ => LastResult(parse, lines[..|lines| - 1])
  }

  predicate WellFormed(parse: Parser, lines: seq<string>) { forall i :: 0 <= i < |lines| ==> !parse(lines[i]).Malformed? }

  /** Numbered upwards from one. */
  predicate Numbered(xs: seq<nat>) {
    (xs != [] ==> 0 < xs[0]) && forall i, j :: 0 <= i < j < |xs| ==> xs[i] < xs[j]
  }

  lemma NumberedGrows(xs: seq<nat>, n: nat)
    requires Numbered(xs)
    ensures Numbered(xs + [n]) <==> n > (if xs == [] then 0 else xs[|xs| - 1])
  {
    var next := xs + [n];
    assert next[|xs|] == n && (xs != [] ==> next[|xs| - 1] == xs[|xs| - 1]);
    if xs != [] && n > xs[|xs| - 1] {
      forall i, j | 0 <= i < j < |next| ensures next[i] < next[j] {
        assert next[i] == xs[i] && xs[i] <= xs[|xs| - 1];
      }
    }
  }

  lemma NumberedPrefix(xs: seq<nat>, n: nat)
    requires Numbered(xs + [n])
    ensures Numbered(xs)
  {
    forall i | 0 <= i < |xs| ensures (xs + [n])[i] == xs[i] {}
  }

  predicate Passes(parse: Parser, lines: seq<string>) {
    WellFormed(parse, lines) && |Reported(parse, lines)| <= 1000 && Numbered(Reported(parse, lines))
  }

  lemma LastLineFeeds(parse: Parser, s: Stream, lines: seq<string>)
    requires lines != []
    ensures var n := |lines| - 1;
      Feed(parse, s, lines) == match Feed(parse, s, lines[..n]) case Err(e) => Err(e) case Ok(mid) => Consume(mid, parse(lines[n]))
  {
    var n := |lines| - 1;
    assert lines == lines[..n] + [lines[n]];
    FeedJoins(parse, s, lines[..n], [lines[n]]);
    assert [lines[n]][1..] == [];
  }

  lemma PassesPrefix(parse: Parser, lines: seq<string>)
    requires lines != [] && Passes(parse, lines)
    ensures Passes(parse, lines[..|lines| - 1])
  {
    match parse(lines[|lines| - 1])
    case Progress(n) => NumberedPrefix(Reported(parse, lines[..|lines| - 1]), n);
    case _ =>
  }

  /** Feeding succeeds exactly for lines that pass, and then delivers all they report and their last result. */
  lemma {:induction false} FeedingMeans(parse: Parser, lines: seq<string>)
    ensures Feed(parse, Stream([], None), lines).Ok? <==> Passes(parse, lines)
    ensures Passes(parse, lines) ==> Feed(parse, Stream([], None), lines) == Ok(Stream(Reported(parse, lines), LastResult(parse, lines)))
  {
    if lines != [] {
      var n := |lines| - 1;
      FeedingMeans(parse, lines[..n]);
      LastLineFeeds(parse, Stream([], None), lines);
      if Passes(parse, lines) { PassesPrefix(parse, lines); }
      if Passes(parse, lines[..n]) {
        match parse(lines[n])
        case Progress(m) => NumberedGrows(Reported(parse, lines[..n]), m);
        case _ =>
      }
    }
  }

  /** All lines of a text, the unfinished one included unless it is blank. */
  function AllLines(text: string): seq<string> {
    Lines(text) + if forall i :: 0 <= i < |Tail(text)| ==> Tail(text)[i] in " \t\r\n" then [] else [Tail(text)]
  }

  /** A text is accepted exactly when no line is malformed, the progress frames are at most a thousand
      and numbered upwards, and some line is a result; then every progress frame was delivered, in
      order, and the last result is the answer. */
  lemma AcceptedExactly(parse: Parser, text: string)
    ensures var lines, answer := AllLines(text), Meaning(parse, text);
      && (answer.Ok? <==>
            && (forall i :: 0 <= i < |lines| ==> !parse(lines[i]).Malformed?)
            && |Reported(parse, lines)| <= 1000 && Numbered(Reported(parse, lines)) && LastResult(parse, lines).Some?)
      && (answer.Ok? ==> answer.value.progress == Reported(parse, lines) && answer.value.final == LastResult(parse, lines))
  {
    var lines := AllLines(text);
    FeedingMeans(parse, lines);
    FeedingMeans(parse, Lines(text));
    BlankMeans(Tail(text));
    if Blank(Tail(text)) {
      assert lines == Lines(text);
    } else {
      LastLineFeeds(parse, Stream([], None), lines);
      assert lines[..|lines| - 1] == Lines(text);
    }
  }

  lemma BlankMeans(text: string)
    ensures Blank(text) <==> forall i :: 0 <= i < |text| ==> text[i] in " \t\r\n"
  {
    assert forall c :: Space(c) <==> c in " \t\r\n";
  }

  predicate FitsAfter(chunks: seq<Chunk>, k: nat)
    requires k <= |chunks|
  {
    Size(chunks[..k]) <= 5000000 && |Tail(Text(chunks[..k]))| <= 256000
  }

  lemma FitsAfterPrefix(chunks: seq<Chunk>, n: nat, k: nat)
    requires k <= n <= |chunks|
    ensures FitsAfter(chunks[..n], k) <==> FitsAfter(chunks, k)
  {
    assert chunks[..n][..k] == chunks[..k];
  }

  /** The limits are on the bytes read so far and on the unfinished line, after every chunk. */
  lemma {:induction false} LimitsMean(chunks: seq<Chunk>)
    ensures WithinLimits(chunks) <==> forall k: nat :: 0 < k <= |chunks| ==> FitsAfter(chunks, k)
  {
    if chunks != [] {
      var n := |chunks| - 1;
      LimitsMean(chunks[..n]);
      forall k: nat | k <= n ensures FitsAfter(chunks[..n], k) <==> FitsAfter(chunks, k) { FitsAfterPrefix(chunks, n, k); }
      LimitsAtEnd(chunks);
    }
  }

  lemma LimitsAtEnd(chunks: seq<Chunk>)
    requires chunks != []
    ensures WithinLimits(chunks) <==> WithinLimits(chunks[..|chunks| - 1]) && FitsAfter(chunks, |chunks|)
  {
    assert chunks[..|chunks|] == chunks;
  }
}
