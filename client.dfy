/**
 * conversation/client.py: the `parse_chunks` generator, aggregate mode
 * (`"".join(parse_chunks())`), chunked mode (the generator itself, here an
 * explicit stream object with a cursor), and `enter_prompt`, which closes
 * the response in aggregate mode only.
 */
module Client {
  import opened Wrappers
  import opened Events
  import opened Wire

  /** How a run of the generator ends: it returns, or it raises. */
  datatype Outcome = Finished | Raised(error: ParseError)

  /** Everything the generator does when driven to the end: the values it
      yields, in order, and how it ends. */
  datatype Run = Run(yielded: seq<Content>, outcome: Outcome)

  /** `parse_chunks`: for each line in order, skip it unless it is a content
      line; otherwise decode it, yielding its content or raising (nothing
      catches the decoding error). */
  function Generate(lines: seq<string>, decode: Decoder): Run
  {
    if lines == [] then Run([], Finished)
    else if !IsContentLine(lines[0]) then Generate(lines[1..], decode)
    else
      match decode(lines[0])
      case Malformed => Run([], Raised(MalformedJson))
      case Extracted(c) =>
        var rest := Generate(lines[1..], decode);
        Run([c] + rest.yielded, rest.outcome)
  }

  /** Values already yielded, followed by a run of the rest of the stream. */
  function After(yielded: seq<Content>, rest: Run): Run
  {
    Run(yielded + rest.yielded, rest.outcome)
  }

  /** `"".join(items)` on a list already built: each item must be a string,
      else `TypeError`. */
  function JoinTexts(items: seq<Content>): Result<string, ParseError>
  {
    if items == [] then Ok("")
    else
      match items[0]
      case NotText => Err(ContentNotText)
      case Text(t) =>
        match JoinTexts(items[1..])
        case Err(e) => Err(e)
        case Ok(s) => Ok(t + s)
  }

  /** Aggregate mode, `"".join(parse_chunks())`: `join` first drains the
      generator into a list, so a decoding error anywhere in the stream is
      raised before any item is type-checked. */
  function Aggregate(lines: seq<string>, decode: Decoder): Result<string, ParseError>
  {
    var run := Generate(lines, decode);
    match run.outcome
    case Raised(e) => Err(e)
    case Finished => JoinTexts(run.yielded)
  }

  /** Running the generator over two pieces of a stream is running it over
      the first and, unless that raised, continuing with the second: order
      is preserved and nothing is yielded after an error. */
  lemma {:induction false} GenerateAppend(a: seq<string>, b: seq<string>, decode: Decoder)
    ensures Generate(a + b, decode) ==
      if Generate(a, decode).outcome.Raised? then Generate(a, decode)
      else After(Generate(a, decode).yielded, Generate(b, decode))
  {
    if a == [] {
      assert a + b == b;
    } else {
      assert (a + b)[0] == a[0];
      assert (a + b)[1..] == a[1..] + b;
      GenerateAppend(a[1..], b, decode);
    }
  }

  /** The generator finishes exactly when every content line decodes, and
      then it yields exactly the reference fragments, one per content line,
      in stream order. */
  lemma {:induction false} GenerateMeaning(lines: seq<string>, decode: Decoder)
    ensures Generate(lines, decode).outcome == (if Decodable(lines, decode) then Finished else Raised(MalformedJson))
    ensures Decodable(lines, decode) ==> Generate(lines, decode).yielded == Fragments(lines, decode)
  {
    if lines != [] {
      DecodableCons(lines, decode);
      GenerateMeaning(lines[1..], decode);
    }
  }

  /** A content line that does not decode ends the run with an error right
      after the fragments of the lines before it: the error is not caught
      and the line is not skipped. */
  lemma GenerateStopsAtMalformed(lines: seq<string>, k: nat, decode: Decoder)
    requires k < |lines| && IsContentLine(lines[k]) && decode(lines[k]) == Malformed
    requires Decodable(lines[..k], decode)
    ensures Generate(lines, decode) == Run(Fragments(lines[..k], decode), Raised(MalformedJson))
  {
    assert lines == lines[..k] + lines[k..];
    GenerateAppend(lines[..k], lines[k..], decode);
    GenerateMeaning(lines[..k], decode);
    assert lines[k..][0] == lines[k];
  }

  /** A line that is not a content line (an empty line, another event type,
      compact JSON) contributes nothing in either mode, wherever it stands. */
  lemma SkipNonContentLine(a: seq<string>, line: string, b: seq<string>, decode: Decoder)
    requires !IsContentLine(line)
    ensures Generate(a + [line] + b, decode) == Generate(a + b, decode)
    ensures Aggregate(a + [line] + b, decode) == Aggregate(a + b, decode)
  {
    assert a + [line] + b == a + ([line] + b);
    GenerateAppend(a, [line] + b, decode);
    GenerateAppend(a, b, decode);
    assert ([line] + b)[0] == line && ([line] + b)[1..] == b;
  }

  /** The decoder is consulted on content lines only. */
  lemma {:induction false} DecoderOnlySeesContentLines(lines: seq<string>, decode: Decoder, decode': Decoder)
    requires forall i | 0 <= i < |lines| && IsContentLine(lines[i]) :: decode(lines[i]) == decode'(lines[i])
    ensures Generate(lines, decode) == Generate(lines, decode')
    ensures Aggregate(lines, decode) == Aggregate(lines, decode')
  {
    if lines != [] {
      forall i | 0 <= i < |lines[1..]| && IsContentLine(lines[1..][i])
        ensures decode(lines[1..][i]) == decode'(lines[1..][i])
      {
        assert lines[1..][i] == lines[i + 1];
      }
      DecoderOnlySeesContentLines(lines[1..], decode, decode');
    }
  }

  /** `join` over the reference fragments gives the transcript when every
      fragment is a string, and `TypeError` otherwise. */
  lemma {:induction false} JoinFragments(lines: seq<string>, decode: Decoder)
    requires Decodable(lines, decode)
    ensures JoinTexts(Fragments(lines, decode)) ==
      if Textual(lines, decode) then Ok(Transcript(lines, decode)) else Err(ContentNotText)
  {
    if lines != [] {
      DecodableCons(lines, decode);
      TextualCons(lines, decode);
      JoinFragments(lines[1..], decode);
      var head := if IsContentLine(lines[0]) && decode(lines[0]).Extracted? then [decode(lines[0]).content] else [];
      var tail := Fragments(lines[1..], decode);
      if head != [] {
        assert (head + tail)[0] == head[0] && (head + tail)[1..] == tail;
      } else {
        assert !IsContentLine(lines[0]);
        assert Fragments(lines, decode) == tail;
        assert Transcript(lines, decode) == Transcript(lines[1..], decode);
      }
    }
  }

  /** Aggregate mode returns the concatenation of the text of every content
      line, in order, when all of them decode to strings; otherwise it raises
      the decoding error if any content line is malformed, and `TypeError`
      if all decode but some content is not a string. */
  lemma AggregateMeaning(lines: seq<string>, decode: Decoder)
    ensures Aggregate(lines, decode) ==
      if !Decodable(lines, decode) then Err(MalformedJson)
      else if !Textual(lines, decode) then Err(ContentNotText)
      else Ok(Transcript(lines, decode))
  {
    GenerateMeaning(lines, decode);
    if Decodable(lines, decode) {
      JoinFragments(lines, decode);
    }
  }

  /** With no content line in the stream, aggregate mode returns "" and the
      generator yields nothing and stops at once. */
  lemma {:induction false} NoContentLines(lines: seq<string>, decode: Decoder)
    requires forall i | 0 <= i < |lines| :: !IsContentLine(lines[i])
    ensures Generate(lines, decode) == Run([], Finished)
    ensures Aggregate(lines, decode) == Ok("")
  {
    if lines != [] {
      assert !IsContentLine(lines[0]);
      forall i | 0 <= i < |lines[1..]|
        ensures !IsContentLine(lines[1..][i])
      {
        assert lines[1..][i] == lines[i + 1];
      }
      NoContentLines(lines[1..], decode);
    }
  }

  /** A run yields nothing and finishes exactly when the stream has no
      content line. */
  lemma {:induction false} EmptyRunIff(lines: seq<string>, decode: Decoder)
    ensures Generate(lines, decode) == Run([], Finished) <==>
      forall i | 0 <= i < |lines| :: !IsContentLine(lines[i])
  {
    if lines != [] && Generate(lines, decode) == Run([], Finished) {
      assert !IsContentLine(lines[0]);
      EmptyRunIff(lines[1..], decode);
      forall i | 0 < i < |lines|
        ensures !IsContentLine(lines[i])
      {
        assert lines[i] == lines[1..][i - 1];
      }
    }
    if forall i | 0 <= i < |lines| :: !IsContentLine(lines[i]) {
      NoContentLines(lines, decode);
    }
  }

  /** Events written without spaces after the separators never match the
      literal prefix: both modes ignore them, whatever they contain. */
  lemma CompactEventsAreSkipped(decode: Decoder)
    ensures
      var lines := ["{\"type\":\"content\",\"content\":\"Hi\"}",
                    "{\"type\":\"status\",\"content\":\"ignored\"}",
                    "{\"type\":\"content\",\"content\":\" there\"}"];
      Generate(lines, decode) == Run([], Finished) && Aggregate(lines, decode) == Ok("")
  {
    var lines := ["{\"type\":\"content\",\"content\":\"Hi\"}",
                  "{\"type\":\"status\",\"content\":\"ignored\"}",
                  "{\"type\":\"content\",\"content\":\" there\"}"];
    assert lines[0][8] != ContentPrefix[8] && lines[1][8] != ContentPrefix[8] && lines[2][8] != ContentPrefix[8];
    NoContentLines(lines, decode);
  }

  /** The same events in the spaced form the prefix expects: the status
      event is skipped, chunked mode yields "Hi" then " there", and
      aggregate mode returns "Hi there". */
  lemma SpacedEventsAreJoined(decode: Decoder)
    requires decode("{\"type\": \"content\", \"content\": \"Hi\"}") == Extracted(Text("Hi"))
    requires decode("{\"type\": \"content\", \"content\": \" there\"}") == Extracted(Text(" there"))
    ensures
      var lines := ["{\"type\": \"content\", \"content\": \"Hi\"}",
                    "{\"type\": \"status\", \"content\": \"ignored\"}",
                    "{\"type\": \"content\", \"content\": \" there\"}"];
      Generate(lines, decode) == Run([Text("Hi"), Text(" there")], Finished) &&
      Aggregate(lines, decode) == Ok("Hi there")
  {
    var lines := ["{\"type\": \"content\", \"content\": \"Hi\"}",
                  "{\"type\": \"status\", \"content\": \"ignored\"}",
                  "{\"type\": \"content\", \"content\": \" there\"}"];
    assert IsContentLine(lines[0]) && IsContentLine(lines[2]);
    assert lines[1][10] != ContentPrefix[10];
    assert lines[1..] == [lines[1], lines[2]] && lines[2..] == [lines[2]] && lines[3..] == [];
    var items := [Text("Hi"), Text(" there")];
    assert items[1..] == [Text(" there")] && items[1..][1..] == [];
    // The verifier does not evaluate concatenations of string literals on its own.
    assert JoinTexts([Text(" there")]) == Ok(" there" + "");
    assert " there" + "" == " there";
    assert "Hi" + " there" == "Hi there";
  }

  /** The generator as an explicit stream: `cursor` is the index of the next
      line to read; `done` is set once it has returned or raised, after
      which it stays exhausted. `yielded` records what it has handed out. */
  class ChunkStream {
    const lines: seq<string>
    const decode: Decoder
    var cursor: nat
    var done: bool
    ghost var yielded: seq<Content>

    /** What was handed out, followed by a run over the unread lines, is a
        run over the whole stream; once exhausted, everything was handed out. */
    ghost predicate Valid()
      reads this
    {
      cursor <= |lines| &&
      if done then yielded == Generate(lines, decode).yielded
      else Generate(lines, decode) == After(yielded, Generate(lines[cursor..], decode))
    }

    /** What the stream would still do if driven to the end. */
    function Remaining(): Run
      reads this
      requires Valid()
    {
      if done then Run([], Finished) else Generate(lines[cursor..], decode)
    }

    /** `parse_chunks()`: a generator that has not started yet. */
    constructor (lines: seq<string>, decode: Decoder)
      ensures Valid()
      ensures this.lines == lines && this.decode == decode
      ensures cursor == 0 && !done && yielded == []
    {
      this.lines := lines;
      this.decode := decode;
      cursor := 0;
      done := false;
      yielded := [];
    }

    /** Whether the next call of `Next` yields or raises, rather than stops. */
    predicate HasNext()
      reads this
      requires Valid()
      ensures HasNext() <==> Remaining() != Run([], Finished)
    {
      var rest := lines[cursor..];
      EmptyRunIff(rest, decode);
      !done && exists i | 0 <= i < |rest| :: IsContentLine(rest[i])
    }

    /** One `next()` on the generator: reads lines until the next content
        line and yields its content, raises if it does not decode, or stops
        at the end of the stream. An exhausted stream only ever stops. */
    method Next() returns (step: Step)
      requires Valid()
      modifies this
      ensures Valid()
      ensures cursor >= old(cursor)
      ensures old(done) ==> step == Stop && done
      ensures !old(done) && old(Remaining()).yielded != [] ==>
        (step == Yield(old(Remaining()).yielded[0]) && !done && cursor > old(cursor) &&
         Remaining() == Run(old(Remaining()).yielded[1..], old(Remaining()).outcome))
      ensures !old(done) && old(Remaining()).yielded == [] ==>
        (done && step == (if old(Remaining()).outcome.Raised? then Raise(old(Remaining()).outcome.error) else Stop))
      ensures yielded == old(yielded) + (if step.Yield? then [step.content] else [])
    {
      if done {
        return Stop;
      }
      while cursor < |lines| && !IsContentLine(lines[cursor])
        invariant old(cursor) <= cursor <= |lines|
        invariant !done && yielded == old(yielded)
        invariant Generate(lines[cursor..], decode) == Generate(lines[old(cursor)..], decode)
      {
        assert lines[cursor..][1..] == lines[cursor + 1..];
        cursor := cursor + 1;
      }
      if cursor == |lines| {
        done := true;
        return Stop;
      }
      assert lines[cursor..][0] == lines[cursor] && lines[cursor..][1..] == lines[cursor + 1..];
      match decode(lines[cursor]) {
        case Malformed =>
          done := true;
          return Raise(MalformedJson);
        case Extracted(c) =>
          ghost var rest := Generate(lines[cursor + 1..], decode);
          assert Generate(lines[cursor..], decode) == Run([c] + rest.yielded, rest.outcome);
          assert yielded + ([c] + rest.yielded) == (yielded + [c]) + rest.yielded;
          cursor := cursor + 1;
          yielded := yielded + [c];
          return Yield(c);
      }
    }
  }

  /** The result of one `next()` call. */
  datatype Step = Yield(content: Content) | Stop | Raise(error: ParseError)

  /** `"".join(stream)`: drain the stream into a list, then join the list. */
  method JoinChunks(stream: ChunkStream) returns (r: Result<string, ParseError>)
    requires stream.Valid() && stream.cursor == 0 && !stream.done && stream.yielded == []
    modifies stream
    ensures r == Aggregate(stream.lines, stream.decode)
    ensures stream.Valid() && stream.done
  {
    var items: seq<Content> := [];
    assert stream.lines[0..] == stream.lines;
    while true
      invariant stream.Valid() && !stream.done && items == stream.yielded
      decreases |stream.lines| - stream.cursor
    {
      ghost var before := stream.Remaining();
      var step := stream.Next();
      match step {
        case Yield(c) =>
          items := items + [c];
        case Stop =>
          assert items + before.yielded == items;
          return JoinTexts(items);
        case Raise(e) =>
          return Err(e);
      }
    }
  }

  /** What `parse_response` returns: the joined string (or the exception
      it raised) in aggregate mode, the unstarted generator in chunked mode. */
  datatype Parsed = Whole(result: Result<string, ParseError>) | Chunks(stream: ChunkStream)

  /** `ResponseParser.parse_response`. */
  method ParseResponse(response: Response, chunked: bool, decode: Decoder) returns (p: Parsed)
    ensures !chunked ==> p == Whole(Aggregate(response.lines, decode))
    ensures chunked ==> (p.Chunks? && fresh(p.stream) && p.stream.Valid() &&
      p.stream.lines == response.lines && p.stream.decode == decode &&
      p.stream.cursor == 0 && !p.stream.done && p.stream.yielded == [])
  {
    var stream := new ChunkStream(response.lines, decode);
    if chunked {
      p := Chunks(stream);
    } else {
      var joined := JoinChunks(stream);
      p := Whole(joined);
    }
  }

  /** `ConversationAPI` with its client injected; the parser is stateless. */
  class ConversationAPI {
    const client: ConversationAPIClient

    constructor (client: ConversationAPIClient)
      ensures this.client == client
    {
      this.client := client;
    }

    /** `enter_prompt`: post the payload, parse the response, and, in
        aggregate mode only, close the response once parsing has returned,
        ignoring any error from the close. A parsing error propagates before
        the close is reached. */
    method EnterPrompt(
      decode: Decoder, prompt: string, model: string := "", webSearch: bool := false,
      provider: string := "", autoContinue: bool := true, apiKey: Option<string> := None,
      chunked: bool := false)
      returns (p: Parsed, ghost response: Response)
      modifies client
      ensures client.sent == old(client.sent) +
        [Request(ConversationUrl(client.baseUrl), BuildPayload(prompt, model, webSearch, provider, autoContinue, apiKey))]
      ensures fresh(response)
      ensures response.lines == client.server(BuildPayload(prompt, model, webSearch, provider, autoContinue, apiKey)).lines
      ensures !chunked ==> p == Whole(Aggregate(response.lines, decode))
      ensures chunked ==> (p.Chunks? && fresh(p.stream) && p.stream.Valid() &&
        p.stream.lines == response.lines && p.stream.decode == decode &&
        p.stream.cursor == 0 && !p.stream.done && p.stream.yielded == [])
      ensures response.closeCalls == if !chunked && p.result.Ok? then 1 else 0
    {
      var data := BuildPayload(prompt, model, webSearch, provider, autoContinue, apiKey);
      var r := client.SendRequest(data);
      p := ParseResponse(r, chunked, decode);
      response := r;
      if !chunked {
        if p.result.Err? {
          return;
        }
        var raised := r.Close();
      }
    }
  }

  /** `api.enter_prompt(prompt=...)` with every other argument left at its
      default: an empty model and provider, no web search, auto-continue on,
      a null API key, and aggregate mode. */
  method EnterPromptWithDefaults(api: ConversationAPI, prompt: string, decode: Decoder)
    returns (p: Parsed)
    modifies api.client
    ensures api.client.sent == old(api.client.sent) +
      [Request(ConversationUrl(api.client.baseUrl), BuildPayload(prompt, "", false, "", true, None))]
    ensures p == Whole(Aggregate(api.client.server(BuildPayload(prompt, "", false, "", true, None)).lines, decode))
  {
    ghost var response;
    p, response := api.EnterPrompt(decode, prompt);
  }
}
