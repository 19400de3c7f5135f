/**
 * How the pipelines read a language-model reply that should hold JSON: the text content is
 * stripped with `strip("```json").strip("```")` and then parsed. The model and the JSON
 * parser are inputs.
 */
module LlmReply {
  import opened Wrappers
  import opened Json
  import opened Text

  /** A reply's `content`: plain text, or a list of content parts. */
  datatype Content = TextContent(text: string) | PartsContent(parts: seq<Json>)

  /** The characters of `"```json"`: a backtick and the letters j, s, o, n. */
  const FenceChars: set<char> := CharSet("```json")

  lemma FenceCharsAre()
    ensures FenceChars == {'`', 'j', 's', 'o', 'n'}
  {
    assert "```json"[3] == 'j' && "```json"[4] == 's' && "```json"[5] == 'o' && "```json"[6] == 'n';
  }

  /** `s.strip("```json").strip("```")`. */
  function FenceStrip(s: string): string
  {
    Strip(Strip(s, FenceChars), CharSet("```"))
  }

  /** The second strip does nothing: the whole operation is one strip with the five characters. */
  lemma FenceStripIsOneStrip(s: string)
    ensures FenceStrip(s) == Strip(s, {'`', 'j', 's', 'o', 'n'})
  {
    FenceCharsAre();
    assert CharSet("```") == {'`'};
    StripSubsetAbsorbed(s, FenceChars, CharSet("```"));
  }

  /** A fenced body comes back as it was when it neither starts nor ends with one of the five characters. */
  lemma FenceStripUnwraps(body: string)
    requires body != [] ==> body[0] !in {'`', 'j', 's', 'o', 'n'} && body[|body| - 1] !in {'`', 'j', 's', 'o', 'n'}
    ensures FenceStrip("```json" + body + "```") == body
  {
    var open, close := "```json", "```";
    FenceCharsAre();
    assert CharSet(open) == FenceChars;
    assert CharSet(close) == {'`'};
    FenceStripFramed(open, body, close, {'`', 'j', 's', 'o', 'n'});
  }

  /** A body framed by fence characters comes back from the fence strip. */
  lemma FenceStripFramed(p: string, t: string, q: string, cs: set<char>)
    requires cs == {'`', 'j', 's', 'o', 'n'}
    requires CharSet(p) <= cs && CharSet(q) <= cs
    requires t != [] ==> t[0] !in cs && t[|t| - 1] !in cs
    ensures FenceStrip(p + t + q) == t
  {
    FenceStripIsOneStrip(p + t + q);
    FramedStrip(p, t, q, cs);
  }

  /** `StripFrame` with the frame given by its character sets. */
  lemma FramedStrip(p: string, t: string, q: string, cs: set<char>)
    requires CharSet(p) <= cs && CharSet(q) <= cs
    requires t != [] ==> t[0] !in cs && t[|t| - 1] !in cs
    ensures Strip(p + t + q, cs) == t
  {
    forall k | 0 <= k < |p|
      ensures p[k] in cs
    {
      assert p[k] in CharSet(p);
    }
    forall k | 0 <= k < |q|
      ensures q[k] in cs
    {
      assert q[k] in CharSet(q);
    }
    StripFrame(p, t, q, cs);
  }

  /** Whitespace is not stripped: a fence on its own lines leaves the line breaks around the body. */
  lemma FenceStripKeepsNewlines(body: string)
    ensures FenceStrip("```json\n" + body + "\n```") == "\n" + body + "\n"
  {
    assert "```json\n" + body + "\n```" == "```json" + ("\n" + body + "\n") + "```";
    FenceStripUnwraps("\n" + body + "\n");
  }

  /** The JSON parser: `None` when the text is not JSON (`json.loads` raises). */
  type Parser = string -> Option<Json>

  /**
   * The reply's JSON: non-text content fails the `isinstance(..., str)` assertion, text
   * that does not parse raises, otherwise the parsed stripped text.
   */
  function ParseReply(content: Content, parse: Parser): (r: Result<Json>)
    ensures content.PartsContent? ==> r == Failure("AssertionError")
    ensures content.TextContent? ==>
              (r.Success? <==> parse(FenceStrip(content.text)).Some?) &&
              (r.Success? ==> r.value == parse(FenceStrip(content.text)).value)
  {
    match content
    case PartsContent(_) => Failure("AssertionError")
    case TextContent(text) =>
      match parse(FenceStrip(text))
      case None => Failure("JSONDecodeError")
      case Some(j) => Success(j)
  }
}
