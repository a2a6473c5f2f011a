/**
 * The line framer inside `_call_ollama_stream` (backend/agents/base_agent.py).
 * Text arrives in arbitrary chunks, each already decoded from its bytes;
 * complete lines are cut off the front of a
 * buffer, an optional `data: ` prefix is removed, and each line is decoded as
 * JSON. An `error` key ends the stream silently, non-empty message content is
 * yielded, and `done` ends the stream after one last attempt at decoding
 * whatever is left in the buffer. JSON decoding itself is a parameter.
 */
module StreamFramer {
  import opened Wrappers
  import opened Text

  /** What `json.loads` made of one line: nothing usable, or an object's relevant keys. */
  datatype Parsed =
    | Invalid
    | Object(hasError: bool, content: string, done: bool)

  /** Why the generator stopped reading, if it did. */
  datatype Stop = Reading | Done | ErrorLine

  /** The framer's state between chunks: the unread buffer, the tokens yielded so far. */
  datatype Frame = Frame(buffer: string, tokens: seq<string>, stop: Stop)

  /**
   * The chunks the HTTP response delivered, each as the text its own bytes
   * decode to, and the failure that ended it, if any.
   */
  datatype StreamReply = StreamReply(chunks: seq<string>, failure: Option<string>)

  /** The tokens a consumer receives, and the message of the exception raised after them. */
  datatype StreamOutcome = StreamOutcome(tokens: seq<string>, raised: Option<string>)

  const ErrorPrefix: string := "Error calling Ollama API: "

  const DataPrefix: string := "data: "

  /** Position of the first newline, or the length when there is none. */
  function NewlineAt(s: string): (i: nat)
    ensures i <= |s|
    ensures forall j :: 0 <= j < i ==> s[j] != '\n'
    ensures i < |s| ==> s[i] == '\n'
  {
    if s == [] || s[0] == '\n' then 0 else 1 + NewlineAt(s[1..])
  }

  /** The JSON text of one line: stripped, with a leading `data: ` removed and stripped again. */
  function LineBody(line: string): string {
    var l := Strip(line);
    if StartsWith(l, DataPrefix) then Strip(l[|DataPrefix|..]) else l
  }

  /** What a complete line decodes to: a blank body is skipped like invalid JSON. */
  function LineParse(line: string, parse: string -> Parsed): Parsed {
    var body := LineBody(line);
    if body == "" then Invalid else parse(body)
  }

  /** What the leftover buffer decodes to at the end: it is stripped but keeps any `data: ` prefix. */
  function RestParse(buffer: string, parse: string -> Parsed): Parsed {
    var t := Strip(buffer);
    if t == "" then Invalid else parse(t)
  }

  /**
   * The two decodes the framer applies. The framing functions below take
   * them as a value, so their reasoning never depends on how lines are
   * stripped.
   */
  datatype Decoder = Decoder(line: string -> Parsed, rest: string -> Parsed)

  function DecoderOf(parse: string -> Parsed): Decoder {
    Decoder(l => LineParse(l, parse), b => RestParse(b, parse))
  }

  /** The last-chance decode of a leftover buffer: its content if non-empty, else nothing. */
  function FinalContent(buffer: string, dec: Decoder): (r: seq<string>)
    ensures |r| <= 1
    ensures forall i :: 0 <= i < |r| ==> r[i] != ""
  {
    match dec.rest(buffer)
    case Invalid => []
    case Object(_, c, _) => if c != "" then [c] else []
  }

  predicate AllNonEmpty(tokens: seq<string>) {
    forall i :: 0 <= i < |tokens| ==> tokens[i] != ""
  }

  /** One complete line, with `rest` the buffer behind it. */
  function ProcessLine(line: string, rest: string, tokens: seq<string>, dec: Decoder): Frame {
    match dec.line(line)
    case Invalid => Frame(rest, tokens, Reading)
    case Object(err, c, done) =>
      if err then Frame(rest, tokens, ErrorLine)
      else
        var t := tokens + (if c != "" then [c] else []);
        if done then Frame(rest, t + FinalContent(rest, dec), Done)
        else Frame(rest, t, Reading)
  }

  /** A line keeps the tokens yielded before it and yields only non-empty ones. */
  lemma ProcessLineExtends(line: string, rest: string, tokens: seq<string>, dec: Decoder)
    ensures var f := ProcessLine(line, rest, tokens, dec);
            f.buffer == rest && |tokens| <= |f.tokens| && f.tokens[..|tokens|] == tokens
            && (AllNonEmpty(tokens) ==> AllNonEmpty(f.tokens))
  {
    var f := ProcessLine(line, rest, tokens, dec);
    match dec.line(line)
    case Invalid =>
    case Object(err, c, done) =>
      if !err {
        var t := tokens + (if c != "" then [c] else []);
        var fin := if done then FinalContent(rest, dec) else [];
        assert f.tokens == tokens + ((if c != "" then [c] else []) + fin);
        assert f.tokens[..|tokens|] == tokens;
        if AllNonEmpty(tokens) {
          forall i | 0 <= i < |f.tokens| ensures f.tokens[i] != "" {
            if i >= |tokens| {
              assert f.tokens[i] == ((if c != "" then [c] else []) + fin)[i - |tokens|];
            }
          }
        }
      }
  }

  /** The inner `while '\n' in buffer` loop: lines are processed until none is complete or one stops the stream. */
  function Drain(buffer: string, tokens: seq<string>, dec: Decoder): (f: Frame)
    decreases |buffer|
  {
    var i := NewlineAt(buffer);
    if i == |buffer| then Frame(buffer, tokens, Reading)
    else
      var f := ProcessLine(buffer[..i], buffer[i + 1..], tokens, dec);
      if f.stop == Reading then Drain(f.buffer, f.tokens, dec) else f
  }

  /** One chunk: appended to the buffer and drained, unless the generator already returned. */
  function Feed(f: Frame, chunk: string, dec: Decoder): Frame {
    if f.stop != Reading then f else Drain(f.buffer + chunk, f.tokens, dec)
  }

  /** The state after the given chunks, fed in order. */
  function FeedAll(chunks: seq<string>, dec: Decoder): Frame {
    if chunks == [] then Frame("", [], Reading)
    else Feed(FeedAll(chunks[..|chunks| - 1], dec), chunks[|chunks| - 1], dec)
  }

  /** What a consumer sees, for any decoder. */
  function Outcome(reply: StreamReply, dec: Decoder): StreamOutcome {
    var f := FeedAll(reply.chunks, dec);
    if f.stop != Reading then StreamOutcome(f.tokens, None)
    else match reply.failure
      case Some(m) => StreamOutcome(f.tokens, Some(ErrorPrefix + m))
      case None => StreamOutcome(f.tokens + FinalContent(f.buffer, dec), None)
  }

  /**
   * What a consumer of the generator sees. A transport failure is raised
   * only if the framer was still reading; a stream that ends normally gets
   * its leftover buffer decoded once.
   */
  function StreamTokens(reply: StreamReply, parse: string -> Parsed): StreamOutcome {
    Outcome(reply, DecoderOf(parse))
  }

  /** The body of the line loop: one complete line decoded, its content yielded. */
  method TakeLine(line: string, rest: string, tokens0: seq<string>, parse: string -> Parsed) returns (f: Frame)
    ensures f == ProcessLine(line, rest, tokens0, DecoderOf(parse))
  {
    var tokens, stop := tokens0, Reading;
    var body := LineBody(line);
    if body != "" {
      match parse(body)
      case Invalid =>
      case Object(err, c, done) =>
        if err {
          stop := ErrorLine;
        } else {
          if c != "" {
            tokens := tokens + [c];
          }
          if done {
            tokens := tokens + FinalContent(rest, DecoderOf(parse));
            stop := Done;
          }
        }
    }
    f := Frame(rest, tokens, stop);
  }

  /** One step of `Drain`: the first complete line, then the rest unless it stopped the stream. */
  lemma DrainUnfold(buffer: string, tokens: seq<string>, dec: Decoder)
    requires NewlineAt(buffer) < |buffer|
    ensures var i := NewlineAt(buffer);
            var f := ProcessLine(buffer[..i], buffer[i + 1..], tokens, dec);
            Drain(buffer, tokens, dec) == if f.stop == Reading then Drain(f.buffer, f.tokens, dec) else f
  {
  }

  /** The `while '\n' in buffer` loop over the complete lines of the buffer. */
  method DrainLines(buffer0: string, tokens0: seq<string>, parse: string -> Parsed) returns (f: Frame)
    ensures f == Drain(buffer0, tokens0, DecoderOf(parse))
  {
    var dec := DecoderOf(parse);
    f := Frame(buffer0, tokens0, Reading);
    while f.stop == Reading && NewlineAt(f.buffer) < |f.buffer|
      invariant f.stop == Reading ==> Drain(f.buffer, f.tokens, dec) == Drain(buffer0, tokens0, dec)
      invariant f.stop != Reading ==> f == Drain(buffer0, tokens0, dec)
      decreases |f.buffer|, if f.stop == Reading then 1 else 0
    {
      var i := NewlineAt(f.buffer);
      DrainUnfold(f.buffer, f.tokens, dec);
      ProcessLineExtends(f.buffer[..i], f.buffer[i + 1..], f.tokens, dec);
      f := TakeLine(f.buffer[..i], f.buffer[i + 1..], f.tokens, parse);
    }
  }

  /** The framer as the source runs it: a loop over chunks around the loop over lines. */
  method FrameStream(reply: StreamReply, parse: string -> Parsed) returns (out: StreamOutcome)
    ensures out == StreamTokens(reply, parse)
  {
    var dec := DecoderOf(parse);
    var f := Frame("", [], Reading);
    var n := 0;
    while n < |reply.chunks| && f.stop == Reading
      invariant 0 <= n <= |reply.chunks|
      invariant f == FeedAll(reply.chunks[..n], dec)
      invariant f.stop != Reading ==> FeedAll(reply.chunks, dec) == f
    {
      assert reply.chunks[..n + 1][..n] == reply.chunks[..n];
      f := DrainLines(f.buffer + reply.chunks[n], f.tokens, parse);
      n := n + 1;
      if f.stop != Reading {
        FeedAllStopped(reply.chunks, n, dec);
      }
    }
    if n == |reply.chunks| {
      assert reply.chunks[..n] == reply.chunks;
    }
    if f.stop != Reading {
      out := StreamOutcome(f.tokens, None);
    } else {
      match reply.failure
      case Some(m) =>
        out := StreamOutcome(f.tokens, Some(ErrorPrefix + m));
      case None =>
        out := StreamOutcome(f.tokens + FinalContent(f.buffer, dec), None);
    }
  }

  /** Once the generator has returned, later chunks change nothing. */
  lemma {:induction false} FeedAllStopped(chunks: seq<string>, n: nat, dec: Decoder)
    requires n <= |chunks| && FeedAll(chunks[..n], dec).stop != Reading
    ensures FeedAll(chunks, dec) == FeedAll(chunks[..n], dec)
    decreases |chunks| - n
  {
    if n < |chunks| {
      assert chunks[..n + 1][..n] == chunks[..n];
      FeedAllStopped(chunks, n + 1, dec);
    } else {
      assert chunks[..n] == chunks;
    }
  }

  lemma {:induction false} DrainTokensNonEmpty(buffer: string, tokens: seq<string>, dec: Decoder)
    requires AllNonEmpty(tokens)
    ensures AllNonEmpty(Drain(buffer, tokens, dec).tokens)
    decreases |buffer|
  {
    var i := NewlineAt(buffer);
    if i < |buffer| {
      DrainUnfold(buffer, tokens, dec);
      var f := ProcessLine(buffer[..i], buffer[i + 1..], tokens, dec);
      ProcessLineExtends(buffer[..i], buffer[i + 1..], tokens, dec);
      if f.stop == Reading {
        DrainTokensNonEmpty(f.buffer, f.tokens, dec);
      }
    }
  }

  lemma {:induction false} FeedAllTokensNonEmpty(chunks: seq<string>, dec: Decoder)
    ensures AllNonEmpty(FeedAll(chunks, dec).tokens)
  {
    if chunks != [] {
      var f := FeedAll(chunks[..|chunks| - 1], dec);
      FeedAllTokensNonEmpty(chunks[..|chunks| - 1], dec);
      if f.stop == Reading {
        DrainTokensNonEmpty(f.buffer + chunks[|chunks| - 1], f.tokens, dec);
      }
    }
  }

  /** For any decoder, no empty token reaches the consumer. */
  lemma OutcomeNonEmpty(reply: StreamReply, dec: Decoder)
    ensures AllNonEmpty(Outcome(reply, dec).tokens)
  {
    FeedAllTokensNonEmpty(reply.chunks, dec);
    var f := FeedAll(reply.chunks, dec);
    var fin := FinalContent(f.buffer, dec);
    assert AllNonEmpty(f.tokens + fin) by {
      forall i | 0 <= i < |f.tokens + fin| ensures (f.tokens + fin)[i] != "" {
        if i >= |f.tokens| {
          assert (f.tokens + fin)[i] == fin[i - |f.tokens|];
        }
      }
    }
  }

  /** The generator never yields an empty token. */
  lemma StreamTokensNonEmpty(reply: StreamReply, parse: string -> Parsed)
    ensures AllNonEmpty(StreamTokens(reply, parse).tokens)
  {
    OutcomeNonEmpty(reply, DecoderOf(parse));
  }

  /** An exception is raised only for a transport failure, and it carries the failure's text. */
  lemma StreamRaises(reply: StreamReply, parse: string -> Parsed)
    ensures StreamTokens(reply, parse).raised.Some? ==>
              reply.failure.Some? && StreamTokens(reply, parse).raised.value == ErrorPrefix + reply.failure.value
    ensures reply.failure.None? ==> StreamTokens(reply, parse).raised.None?
  {
  }

  lemma NewlineAtAppend(a: string, b: string)
    requires NewlineAt(a) < |a|
    ensures NewlineAt(a + b) == NewlineAt(a)
  {
    var i := NewlineAt(a);
    var j := NewlineAt(a + b);
    assert (a + b)[i] == '\n';
    if j < i {
      assert (a + b)[j] == a[j];
    }
  }

  /** A line that does not stop the stream does not look at the buffer behind it. */
  lemma ProcessLineRest(line: string, rest: string, rest': string, tokens: seq<string>, dec: Decoder)
    requires ProcessLine(line, rest, tokens, dec).stop == Reading
    ensures ProcessLine(line, rest', tokens, dec) == ProcessLine(line, rest, tokens, dec).(buffer := rest')
  {
  }

  /**
   * Draining a buffer and then appending more text is the same as draining
   * the longer buffer, as long as the first drain did not stop the stream.
   */
  lemma {:induction false} DrainAppend(buffer: string, tokens: seq<string>, more: string, dec: Decoder)
    requires Drain(buffer, tokens, dec).stop == Reading
    ensures var f := Drain(buffer, tokens, dec);
            Drain(f.buffer + more, f.tokens, dec) == Drain(buffer + more, tokens, dec)
    decreases |buffer|
  {
    var i := NewlineAt(buffer);
    if i < |buffer| {
      NewlineAtAppend(buffer, more);
      var s := buffer + more;
      assert s[..i] == buffer[..i];
      assert s[i + 1..] == buffer[i + 1..] + more;
      DrainUnfold(buffer, tokens, dec);
      DrainUnfold(s, tokens, dec);
      var f := ProcessLine(buffer[..i], buffer[i + 1..], tokens, dec);
      ProcessLineRest(buffer[..i], buffer[i + 1..], buffer[i + 1..] + more, tokens, dec);
      DrainAppend(f.buffer, f.tokens, more, dec);
    }
  }

  lemma {:induction false} ConcatSnoc(parts: seq<string>, p: string)
    ensures Concat(parts + [p]) == Concat(parts) + p
  {
    if parts != [] {
      assert (parts + [p])[1..] == parts[1..] + [p];
      ConcatSnoc(parts[1..], p);
    }
  }

  /** While nothing stops the stream, how the bytes were cut into chunks does not matter. */
  lemma {:induction false} FeedAllIsDrain(chunks: seq<string>, dec: Decoder)
    requires FeedAll(chunks, dec).stop == Reading
    ensures FeedAll(chunks, dec) == Drain(Concat(chunks), [], dec)
  {
    if chunks == [] {
      assert Drain("", [], dec) == Frame("", [], Reading);
    } else {
      var init := chunks[..|chunks| - 1];
      var last := chunks[|chunks| - 1];
      FeedAllIsDrain(init, dec);
      DrainAppend(Concat(init), [], last, dec);
      assert init + [last] == chunks;
      ConcatSnoc(init, last);
    }
  }

  /** For any decoder, a stream that is never stopped yields the same as its bytes in one chunk. */
  lemma OutcomeChunking(reply: StreamReply, dec: Decoder)
    requires FeedAll(reply.chunks, dec).stop == Reading
    ensures Outcome(reply, dec) == Outcome(StreamReply([Concat(reply.chunks)], reply.failure), dec)
  {
    var whole := [Concat(reply.chunks)];
    FeedAllIsDrain(reply.chunks, dec);
    assert whole[..0] == [];
    assert FeedAll(whole, dec) == Feed(Frame("", [], Reading), Concat(reply.chunks), dec);
  }

  /** A stream that is never stopped yields the same tokens however its decoded text was chunked. */
  lemma ChunkingIrrelevant(reply: StreamReply, parse: string -> Parsed)
    requires FeedAll(reply.chunks, DecoderOf(parse)).stop == Reading
    ensures StreamTokens(reply, parse) == StreamTokens(StreamReply([Concat(reply.chunks)], reply.failure), parse)
  {
    OutcomeChunking(reply, DecoderOf(parse));
  }
}
