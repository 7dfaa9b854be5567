/**
 * The response stream as both parsers see it: which lines count as content
 * events, what extracting the `content` field of such a line can give, and
 * the reference meaning of a stream (the contents of its content lines, in
 * order), stated without any of the parsers' control flow.
 */
module Events {

  /** The literal text a line must begin with to be treated as a content
      event. The spaces after the colons and the comma are part of it, so a
      compact line such as {"type":"content","content":"Hi"} does not match. */
  const ContentPrefix: string := "{\"type\": \"content\", \"content\":"

  /** The two tests both parsers apply to a line: it is not empty, and it
      starts with `ContentPrefix`. */
  predicate IsContentLine(line: string)
  {
    line != [] && ContentPrefix <= line
  }

  /** The JSON value found under the `content` key of a parsed line. */
  datatype Content =
    | Text(text: string)  // a JSON string
    | NotText             // a number, boolean, null, array or object

  /** What `json.loads(line)['content']` gives on a line that starts with
      `ContentPrefix`: the value, or a decoding error. Such a line always
      has a `content` key once it parses, so no other failure exists. */
  datatype Extraction = Extracted(content: Content) | Malformed

  /** `json.loads` followed by `['content']`, left abstract: every property
      of the model holds for every decoder. */
  type Decoder = string -> Extraction

  /** The exceptions that parsing a stream can raise: a content line that is
      not valid JSON (`JSONDecodeError`), or a content value that is not a
      string reaching string concatenation (`TypeError`). */
  datatype ParseError = MalformedJson | ContentNotText

  predicate IsText(e: Extraction)
  {
    e.Extracted? && e.content.Text?
  }

  /** Every content line of the stream decodes. */
  ghost predicate Decodable(lines: seq<string>, decode: Decoder)
  {
    forall i | 0 <= i < |lines| && IsContentLine(lines[i]) :: decode(lines[i]).Extracted?
  }

  /** Every content line of the stream decodes to a JSON string. */
  ghost predicate Textual(lines: seq<string>, decode: Decoder)
  {
    forall i | 0 <= i < |lines| && IsContentLine(lines[i]) :: IsText(decode(lines[i]))
  }

  /** Reference meaning of a stream for the chunked reader: the content value
      of every content line that decodes, in stream order. */
  function Fragments(lines: seq<string>, decode: Decoder): seq<Content>
  {
    if lines == [] then []
    else
      (if IsContentLine(lines[0]) && decode(lines[0]).Extracted? then [decode(lines[0]).content] else [])
      + Fragments(lines[1..], decode)
  }

  /** Reference meaning of a stream as one string: the text of every content
      line whose content is a string, concatenated in stream order. */
  function Transcript(lines: seq<string>, decode: Decoder): string
  {
    if lines == [] then ""
    else
      (if IsContentLine(lines[0]) && IsText(decode(lines[0])) then decode(lines[0]).content.text else "")
      + Transcript(lines[1..], decode)
  }

  lemma DecodableCons(lines: seq<string>, decode: Decoder)
    requires lines != []
    ensures Decodable(lines, decode) <==>
      (IsContentLine(lines[0]) ==> decode(lines[0]).Extracted?) && Decodable(lines[1..], decode)
  {
    if (IsContentLine(lines[0]) ==> decode(lines[0]).Extracted?) && Decodable(lines[1..], decode) {
      forall i | 0 < i < |lines| && IsContentLine(lines[i])
        ensures decode(lines[i]).Extracted?
      {
        assert lines[i] == lines[1..][i - 1];
      }
    }
  }

  lemma TextualCons(lines: seq<string>, decode: Decoder)
    requires lines != []
    ensures Textual(lines, decode) <==>
      (IsContentLine(lines[0]) ==> IsText(decode(lines[0]))) && Textual(lines[1..], decode)
  {
    if (IsContentLine(lines[0]) ==> IsText(decode(lines[0]))) && Textual(lines[1..], decode) {
      forall i | 0 < i < |lines| && IsContentLine(lines[i])
        ensures IsText(decode(lines[i]))
      {
        assert lines[i] == lines[1..][i - 1];
      }
    }
  }

  lemma TextualSnoc(lines: seq<string>, line: string, decode: Decoder)
    ensures Textual(lines + [line], decode) <==>
      Textual(lines, decode) && (IsContentLine(line) ==> IsText(decode(line)))
  {
    var all := lines + [line];
    assert all[|lines|] == line;
    if Textual(lines, decode) && (IsContentLine(line) ==> IsText(decode(line))) {
      forall i | 0 <= i < |all| && IsContentLine(all[i])
        ensures IsText(decode(all[i]))
      {
        if i < |lines| { assert all[i] == lines[i]; }
      }
    }
    if Textual(all, decode) {
      forall i | 0 <= i < |lines| && IsContentLine(lines[i])
        ensures IsText(decode(lines[i]))
      {
        assert all[i] == lines[i];
      }
    }
  }

  /** Appending one line to a stream appends that line's text, if any, to
      the transcript. */
  lemma {:induction false} TranscriptSnoc(lines: seq<string>, line: string, decode: Decoder)
    ensures Transcript(lines + [line], decode) ==
      Transcript(lines, decode) + (if IsContentLine(line) && IsText(decode(line)) then decode(line).content.text else "")
  {
    if lines == [] {
      assert [line][1..] == [];
    } else {
      assert (lines + [line])[1..] == lines[1..] + [line];
      TranscriptSnoc(lines[1..], line, decode);
    }
  }
}
