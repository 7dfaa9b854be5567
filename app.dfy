/**
 * app.py: the older parser, which builds the answer with `+=` in a loop
 * over the lines, and its `enter_prompt`, which always closes the response
 * after parsing.
 */
module App {
  import opened Wrappers
  import opened Events
  import opened Wire
  import Client

  /** One iteration of the loop: a content line's text is appended to the
      answer so far; decoding it may raise, and appending a content value
      that is not a string to a string raises `TypeError`. Other lines leave
      the answer as it is. */
  function AddLine(answer: string, line: string, decode: Decoder): Result<string, ParseError>
  {
    if !IsContentLine(line) then Ok(answer)
    else
      match decode(line)
      case Malformed => Err(MalformedJson)
      case Extracted(NotText) => Err(ContentNotText)
      case Extracted(Text(t)) => Ok(answer + t)
  }

  /** The value of `full_response` after the loop has read all of `lines`,
      or the exception that stopped it. */
  function Accumulate(lines: seq<string>, decode: Decoder): Result<string, ParseError>
  {
    if lines == [] then Ok("")
    else
      match Accumulate(lines[..|lines| - 1], decode)
      case Err(e) => Err(e)
      case Ok(answer) => AddLine(answer, lines[|lines| - 1], decode)
  }

  /** Once the loop has raised, reading more lines does not matter. */
  lemma {:induction false} ErrorStops(lines: seq<string>, k: nat, decode: Decoder)
    requires k <= |lines| && Accumulate(lines[..k], decode).Err?
    ensures Accumulate(lines, decode) == Accumulate(lines[..k], decode)
    decreases |lines| - k
  {
    if k < |lines| {
      var next := lines[..k + 1];
      assert next[..|next| - 1] == lines[..k];
      ErrorStops(lines, k + 1, decode);
    } else {
      assert lines[..k] == lines;
    }
  }

  /** `ResponseParser.parse_response`. */
  method ParseResponse(response: Response, decode: Decoder) returns (r: Result<string, ParseError>)
    ensures r == Accumulate(response.lines, decode)
  {
    var lines := response.lines;
    var fullResponse := "";
    var i := 0;
    while i < |lines|
      invariant i <= |lines|
      invariant Accumulate(lines[..i], decode) == Ok(fullResponse)
    {
      var line := lines[i];
      assert lines[..i + 1][..i] == lines[..i] && lines[..i + 1][i] == line;
      if line != [] {
        if ContentPrefix <= line {
          match decode(line) {
            case Malformed =>
              ErrorStops(lines, i + 1, decode);
              return Err(MalformedJson);
            case Extracted(NotText) =>
              ErrorStops(lines, i + 1, decode);
              return Err(ContentNotText);
            case Extracted(Text(content)) =>
              fullResponse := fullResponse + content;
          }
        }
      }
      i := i + 1;
    }
    assert lines[..i] == lines;
    return Ok(fullResponse);
  }

  /** The loop returns the concatenation of the text of every content line,
      in stream order, exactly when all of them decode to strings. */
  lemma {:induction false} AccumulateMeaning(lines: seq<string>, decode: Decoder)
    ensures Accumulate(lines, decode).Ok? <==> Textual(lines, decode)
    ensures Textual(lines, decode) ==> Accumulate(lines, decode) == Ok(Transcript(lines, decode))
  {
    if lines != [] {
      var init := lines[..|lines| - 1];
      var last := lines[|lines| - 1];
      assert lines == init + [last];
      AccumulateMeaning(init, decode);
      TextualSnoc(init, last, decode);
      TranscriptSnoc(init, last, decode);
      if Textual(lines, decode) && !IsContentLine(last) {
        assert Transcript(init, decode) + "" == Transcript(init, decode);
      }
    }
  }

  /** The first content line that does not decode to a string decides the
      exception the loop raises: the decoding error, or `TypeError`. */
  lemma AccumulateStopsAtFirstProblem(lines: seq<string>, k: nat, decode: Decoder)
    requires k < |lines| && IsContentLine(lines[k]) && !IsText(decode(lines[k]))
    requires Textual(lines[..k], decode)
    ensures Accumulate(lines, decode) ==
      Err(if decode(lines[k]).Malformed? then MalformedJson else ContentNotText)
  {
    AccumulateMeaning(lines[..k], decode);
    var next := lines[..k + 1];
    assert next[..|next| - 1] == lines[..k] && next[|next| - 1] == lines[k];
    ErrorStops(lines, k + 1, decode);
  }

  /** An empty line, or any line not starting with the content prefix,
      leaves `full_response` unchanged. */
  lemma NonContentLineKeepsAnswer(lines: seq<string>, line: string, decode: Decoder)
    requires !IsContentLine(line)
    ensures Accumulate(lines + [line], decode) == Accumulate(lines, decode)
  {
    assert (lines + [line])[..|lines + [line]| - 1] == lines;
  }

  /** With no content line in the stream, the answer is "". */
  lemma {:induction false} NoContentLinesGiveEmpty(lines: seq<string>, decode: Decoder)
    requires forall i | 0 <= i < |lines| :: !IsContentLine(lines[i])
    ensures Accumulate(lines, decode) == Ok("")
  {
    if lines != [] {
      var init := lines[..|lines| - 1];
      forall i | 0 <= i < |init|
        ensures !IsContentLine(init[i])
      {
        assert init[i] == lines[i];
      }
      NoContentLinesGiveEmpty(init, decode);
    }
  }

  /** On the same lines, the loop succeeds exactly when aggregate mode of
      conversation/client.py succeeds, and then both return the same string. */
  lemma AgreesWithClientAggregate(lines: seq<string>, decode: Decoder)
    ensures Accumulate(lines, decode).Ok? <==> Client.Aggregate(lines, decode).Ok?
    ensures Accumulate(lines, decode).Ok? ==> Accumulate(lines, decode) == Client.Aggregate(lines, decode)
  {
    AccumulateMeaning(lines, decode);
    Client.AggregateMeaning(lines, decode);
    if Textual(lines, decode) {
      assert Decodable(lines, decode) by {
        forall i | 0 <= i < |lines| && IsContentLine(lines[i])
          ensures decode(lines[i]).Extracted?
        {
          assert IsText(decode(lines[i]));
        }
      }
    }
  }

  /** The two parsers fail on the same streams but may raise different
      exceptions: a non-string content followed by a malformed content line
      makes this loop raise `TypeError` first, while `"".join` drains the
      generator and meets the decoding error first. */
  lemma ErrorKindsDiffer()
    ensures
      var numeric := "{\"type\": \"content\", \"content\": 1}";
      var broken := "{\"type\": \"content\", \"content\": ";
      var decode: Decoder := line => if line == numeric then Extracted(NotText) else Malformed;
      Accumulate([numeric, broken], decode) == Err(ContentNotText) &&
      Client.Aggregate([numeric, broken], decode) == Err(MalformedJson)
  {
    var numeric := "{\"type\": \"content\", \"content\": 1}";
    var broken := "{\"type\": \"content\", \"content\": ";
    var decode: Decoder := line => if line == numeric then Extracted(NotText) else Malformed;
    var lines := [numeric, broken];
    assert IsContentLine(numeric) && IsContentLine(broken);
    assert lines[..1] == [numeric] && [numeric][..0] == [];
    assert Accumulate([numeric], decode) == Err(ContentNotText);
    assert lines[1..] == [broken];
  }

  /** `ConversationAPI` with its client injected; the parser is stateless. */
  class ConversationAPI {
    const client: ConversationAPIClient

    constructor (client: ConversationAPIClient)
      ensures this.client == client
    {
      this.client := client;
    }

    /** `enter_prompt`: post the payload, parse the whole response, then
        close it, ignoring any error from the close; the parsed answer is
        returned unchanged. A parsing error propagates before the close. */
    method EnterPrompt(
      decode: Decoder, prompt: string, model: string := "", webSearch: bool := false,
      provider: string := "", autoContinue: bool := true, apiKey: Option<string> := None)
      returns (fullResponse: Result<string, ParseError>, ghost response: Response)
      modifies client
      ensures client.sent == old(client.sent) +
        [Request(ConversationUrl(client.baseUrl), BuildPayload(prompt, model, webSearch, provider, autoContinue, apiKey))]
      ensures fresh(response)
      ensures response.lines == client.server(BuildPayload(prompt, model, webSearch, provider, autoContinue, apiKey)).lines
      ensures fullResponse == Accumulate(response.lines, decode)
      ensures response.closeCalls == if fullResponse.Ok? then 1 else 0
    {
      var data := BuildPayload(prompt, model, webSearch, provider, autoContinue, apiKey);
      var r := client.SendRequest(data);
      response := r;
      fullResponse := ParseResponse(r, decode);
      if fullResponse.Err? {
        return;
      }
      var raised := r.Close();
    }
  }

  /** `api.enter_prompt(prompt)`, the call the interactive loop makes: every
      other argument keeps its default. */
  method EnterPromptWithDefaults(api: ConversationAPI, prompt: string, decode: Decoder)
    returns (fullResponse: Result<string, ParseError>)
    modifies api.client
    ensures api.client.sent == old(api.client.sent) +
      [Request(ConversationUrl(api.client.baseUrl), BuildPayload(prompt, "", false, "", true, None))]
    ensures fullResponse == Accumulate(api.client.server(BuildPayload(prompt, "", false, "", true, None)).lines, decode)
  {
    ghost var response;
    fullResponse, response := api.EnterPrompt(decode, prompt);
  }
}
