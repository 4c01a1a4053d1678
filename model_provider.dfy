/** The provider configuration record and the one piece of shared logic of
    the abstract model provider: removing a Markdown code fence around a JSON
    answer (electron/ModelProvider.ts). */
module ModelProvider {
  import opened Outcomes
  import opened Text

  /** `ModelProviderConfig`. An optional field that is absent, `undefined` or
      `null` is `None`. The provider is a string because a configuration read
      from disk may name any provider. */
  datatype ModelProviderConfig = ModelProviderConfig(
    provider: string,
    apiKey: Option<string>,
    baseUrl: Option<string>,
    modelName: Option<string>)

  /** A value JavaScript treats as true in `if (!x)` or `x || y`: a defined,
      non-empty string. */
  predicate Truthy(s: Option<string>) {
    s.Some? && s.value != ""
  }

  const JsonFence: string := "```json\n"
  const PlainFence: string := "```\n"
  const ClosingFence: string := "\n```"

  /** `replace(/^```(?:json)?\n/, '')`: one opening fence at the very start. */
  function StripOpeningFence(text: string): (r: string)
    ensures StartsWith(text, JsonFence) ==> r == text[|JsonFence|..]
    ensures StartsWith(text, PlainFence) ==> r == text[|PlainFence|..]
    ensures !StartsWith(text, JsonFence) && !StartsWith(text, PlainFence) ==> r == text
  {
    if StartsWith(text, JsonFence) then
      // the fourth character tells the two openers apart
      assert text[..|PlainFence|][3] == text[..|JsonFence|][3] == 'j';
      text[|JsonFence|..]
    else if StartsWith(text, PlainFence) then text[|PlainFence|..]
    else text
  }

  /** `replace(/\n```$/, '')`: one closing fence at the very end (`$` without
      the `m` flag matches only at the end of the input). */
  function StripClosingFence(text: string): (r: string)
    ensures EndsWith(text, ClosingFence) ==> r == text[..|text| - |ClosingFence|]
    ensures !EndsWith(text, ClosingFence) ==> r == text
  {
    if EndsWith(text, ClosingFence) then text[..|text| - |ClosingFence|] else text
  }

  /** `cleanJsonResponse`: strip one opening fence, then one closing fence,
      then the white space at both ends. */
  function CleanJsonResponse(text: string): (r: string)
    ensures NoEdgeSpace(r)
    ensures |r| <= |text|
  {
    Trim(StripClosingFence(StripOpeningFence(text)))
  }

  /** A fenced JSON block comes out as its trimmed body. */
  lemma FencedJsonCleaned(body: string)
    ensures CleanJsonResponse(JsonFence + body + ClosingFence) == Trim(body)
  {
    var text := JsonFence + body + ClosingFence;
    assert text[..|JsonFence|] == JsonFence;
    var unfenced := text[|JsonFence|..];
    assert unfenced == body + ClosingFence;
    assert unfenced[|unfenced| - |ClosingFence|..] == ClosingFence;
    assert unfenced[..|unfenced| - |ClosingFence|] == body;
  }

  /** A block fenced without a language tag comes out as its trimmed body. */
  lemma FencedPlainCleaned(body: string)
    ensures CleanJsonResponse(PlainFence + body + ClosingFence) == Trim(body)
  {
    var text := PlainFence + body + ClosingFence;
    assert text[3] == '\n' != JsonFence[3];
    assert text[..|PlainFence|] == PlainFence;
    var unfenced := text[|PlainFence|..];
    assert unfenced == body + ClosingFence;
    assert unfenced[|unfenced| - |ClosingFence|..] == ClosingFence;
    assert unfenced[..|unfenced| - |ClosingFence|] == body;
  }

  /** Text with no fence at either end is only trimmed. */
  lemma UnfencedTrimmed(text: string)
    requires !StartsWith(text, JsonFence) && !StartsWith(text, PlainFence)
    requires !EndsWith(text, ClosingFence)
    ensures CleanJsonResponse(text) == Trim(text)
  {
  }

  /** Each fence is removed at most once: a doubly fenced block keeps its
      inner fences. */
  lemma DoubleFenceStrippedOnce(body: string)
    ensures CleanJsonResponse(JsonFence + (JsonFence + body + ClosingFence) + ClosingFence)
         == JsonFence + body + ClosingFence
  {
    var inner := JsonFence + body + ClosingFence;
    FencedJsonCleaned(inner);
    assert inner[0] == '`' && inner[|inner| - 1] == '`';
    TrimKeeps(inner);
  }

  /** Text that starts with white space has no opening fence to strip. */
  lemma NoOpeningAfterSpace(text: string)
    requires text != [] && IsSpace(text[0])
    ensures StripOpeningFence(text) == text
  {
    assert !StartsWith(text, JsonFence) by {
      assert |JsonFence| <= |text| ==> text[..|JsonFence|][0] == text[0];
    }
    assert !StartsWith(text, PlainFence) by {
      assert |PlainFence| <= |text| ==> text[..|PlainFence|][0] == text[0];
    }
  }

  /** A closing fence at the end never reaches into an opening fence earlier
      in the text. */
  lemma ClosingSparesOpener(indent: string, rest: string)
    ensures StartsWith(StripClosingFence(indent + JsonFence + rest), indent + "```json")
  {
    var text := indent + JsonFence + rest;
    var kept := indent + "```json";
    assert text[..|kept|] == kept;
    if |rest| < 3 {
      assert text[|text| - 4] == JsonFence[4 + |rest|];
      assert !EndsWith(text, ClosingFence) by {
        assert |ClosingFence| <= |text| ==> text[|text| - |ClosingFence|..][0] == text[|text| - 4];
      }
    } else {
      assert |text| - |ClosingFence| >= |kept|;
      assert text[..|text| - |ClosingFence|][..|kept|] == kept;
    }
  }

  /** Trimming removes the indentation before a fence and never the fence. */
  lemma TrimKeepsFence(indent: string, tail: string)
    requires AllIn(indent, Space)
    ensures StartsWith(Trim(indent + "```json" + tail), "```json")
  {
    var text := indent + ("```json" + tail);
    assert text == indent + "```json" + tail;
    RunOf(indent, "```json" + tail, Space);
    var started := TrimStart(text);
    assert started == "```json" + tail;
    var r := TrimEnd(started);
    assert !IsSpace(started[6]);
    assert r[..7] == started[..7];
  }

  /** Fences are removed before trimming, so an opening fence after leading
      white space stays in the result. */
  lemma IndentedFenceKept(indent: string, rest: string)
    requires indent != [] && AllIn(indent, Space)
    ensures StartsWith(CleanJsonResponse(indent + JsonFence + rest), "```json")
  {
    var text := indent + JsonFence + rest;
    assert text[0] == indent[0];
    NoOpeningAfterSpace(text);
    ClosingSparesOpener(indent, rest);
    var closed := StripClosingFence(text);
    var kept := indent + "```json";
    var tail := closed[|kept|..];
    assert closed == kept + tail;
    TrimKeepsFence(indent, tail);
  }
}
