/**
 * The local logic of services/gemini_service.py: cleaning a model reply of
 * Markdown code fences, choosing between the decoded roadmap, the fixed
 * fallback roadmap and an error, and the never-raising conversational reply.
 * The Vertex AI call is represented by its outcome (`LlmReply`) and
 * `json.loads` by an abstract decoder passed in as a function.
 */
module Gemini {

  import opened Wrappers
  import opened Text

  /**
   * A value `json.loads` can return (JSON numbers are modelled as integers only).
   * An object keeps its members as written; a key's value is that of its last
   * occurrence, as in `json.loads`.
   */
  datatype Json =
    | JNull
    | JBool(b: bool)
    | JNumber(n: int)
    | JString(s: string)
    | JArray(items: seq<Json>)
    | JObject(members: seq<(string, Json)>)

  /** The value of the last member named `key` (a repeated key keeps its last value in `json.loads`). */
  function Lookup(members: seq<(string, Json)>, key: string): Option<Json>
  {
    if members == [] then None
    else if members[|members| - 1].0 == key then Some(members[|members| - 1].1)
    else Lookup(members[..|members| - 1], key)
  }

  /** `doc[key]` on a decoded object; `None` where Python would raise `KeyError`/`TypeError`. */
  function Field(doc: Json, key: string): Option<Json>
  {
    if doc.JObject? then Lookup(doc.members, key) else None
  }

  /**
   * What the language model call produced: the text of its reply, or an exception
   * raised by `vertexai.init`, `model.generate_content` or reading `response.text`.
   */
  datatype LlmReply = Raised(detail: string) | Replied(text: string)

  /**
   * What `json.loads` does with a text: return a document, raise `JSONDecodeError`, or
   * raise another exception that `except json.JSONDecodeError` does not catch, such as the
   * `ValueError` for an integer literal over the digit limit or a `RecursionError` for
   * very deep nesting.
   */
  datatype Decoded = Loaded(doc: Json) | DecodeError | LoadsRaised(detail: string)

  /** Exceptions `generate_roadmap` lets escape. */
  datatype Failure = ProjectNotConfigured | EmptyResponse | ModelFailed(detail: string) | DecodeFailed(detail: string)
  {
    /** The text `str(e)` gives for the exception. */
    function Message(): string
    {
      match this
      case ProjectNotConfigured => "GOOGLE_CLOUD_PROJECT not configured"
      case EmptyResponse => "Empty response from Gemini"
      case ModelFailed(d) => d
      case DecodeFailed(d) => d
    }
  }

  /** `if not project_id`: an unset or empty GOOGLE_CLOUD_PROJECT counts as missing. */
  predicate Configured(projectId: Option<string>)
  {
    projectId.Some? && projectId.value != ""
  }

  const Fence: string := "```"
  const JsonFence: string := "```json"

  // ---------------------------------------------------------------------------
  // Fence stripping (generate_roadmap, the clean-up before decoding)
  // ---------------------------------------------------------------------------

  /** Drop a leading "```json", then a leading "```", then a trailing "```". */
  function DropFences(s1: string): string
  {
    var s2 := if StartsWith(s1, JsonFence) then s1[|JsonFence|..] else s1;
    var s3 := if StartsWith(s2, Fence) then s2[|Fence|..] else s2;
    if EndsWith(s3, Fence) then s3[..|s3| - |Fence|] else s3
  }

  /** Strip, drop the fences, strip again: the text handed to the decoder. */
  function CleanResponse(raw: string): string
  {
    Strip(DropFences(Strip(raw)))
  }

  /** Dropping fences keeps a contiguous piece of the text. */
  lemma DropFencesIsInfix(s1: string)
    ensures IsInfix(DropFences(s1), s1)
  {
    var lo, hi := DropAffixesSlice(s1, JsonFence, Fence);
    assert DropFences(s1) == s1[lo..hi];
  }

  /** The cleaned text has no surrounding whitespace. */
  lemma CleanResponseTrimmed(raw: string)
    ensures Trimmed(CleanResponse(raw))
  {
    StripTrimmed(DropFences(Strip(raw)));
  }

  /** The cleaned text is a contiguous piece of the raw reply. */
  lemma CleanResponseIsInfix(raw: string)
    ensures IsInfix(CleanResponse(raw), raw)
  {
    var s1 := Strip(raw);
    var s4 := DropFences(s1);
    StripIsInfix(raw);
    DropFencesIsInfix(s1);
    StripIsInfix(s4);
    InfixTransitive(s4, s1, raw);
    InfixTransitive(Strip(s4), s4, raw);
  }

  lemma JsonFenceStartsWithFence(s: string)
    requires StartsWith(s, JsonFence)
    ensures StartsWith(s, Fence)
  {
    assert s[..|Fence|] == s[..|JsonFence|][..|Fence|];
  }

  /** A reply without fences comes back as just its stripped form. */
  lemma CleanResponseNoFence(raw: string)
    requires !StartsWith(Strip(raw), Fence) && !EndsWith(Strip(raw), Fence)
    ensures CleanResponse(raw) == Strip(raw)
  {
    if StartsWith(Strip(raw), JsonFence) {
      JsonFenceStartsWithFence(Strip(raw));
    }
    assert DropFences(Strip(raw)) == Strip(raw);
    StripIdempotent(raw);
  }

  /** Whitespace around an already trimmed string is exactly what `strip` removes. */
  lemma StripPadded(w1: string, x: string, w2: string)
    requires AllSpace(w1) && AllSpace(w2) && Trimmed(x)
    ensures Strip(w1 + x + w2) == x
  {
    var s := w1 + x + w2;
    if x == [] {
      assert AllSpace(s) by {
        forall k | 0 <= k < |s| ensures IsSpace(s[k]) {
          if k < |w1| { assert s[k] == w1[k]; } else { assert s[k] == w2[k - |w1|]; }
        }
      }
      StripEmptyIff(s);
    } else {
      assert s == w1 + (x + w2);
      LStripSpaces(w1, x + w2);
      RStripSpaces(x, w2);
    }
  }

  /** The text between "```json" and "```" is what `DropFences` keeps. */
  lemma DropFencesJson(body: string)
    requires !StartsWith(body, Fence)
    ensures DropFences(JsonFence + body + Fence) == body
  {
    var core := JsonFence + body + Fence;
    assert StartsWith(core, JsonFence) by { assert core[..|JsonFence|] == JsonFence; }
    var s2 := core[|JsonFence|..];
    assert s2 == body + Fence;
    if StartsWith(s2, Fence) {
      // only possible when body is one of "", "`", "``", and then dropping gives body back
      assert |body| < 3;
      var s3 := s2[|Fence|..];
      assert s3 == body by {
        forall k | 0 <= k < |body| ensures body[k] == s3[k] {
          assert s2[k] == Fence[k];
          assert s2[k + 3] == Fence[k + 3 - |body|];
        }
      }
      assert !EndsWith(s3, Fence);
    } else {
      assert EndsWith(s2, Fence);
      assert s2[..|s2| - |Fence|] == body;
    }
  }

  /** The text between "```" and "```" is what `DropFences` keeps when it does not start with "json". */
  lemma DropFencesPlain(body: string)
    requires !StartsWith(body, Fence) && !StartsWith(body, "json")
    ensures DropFences(Fence + body + Fence) == body
  {
    var core := Fence + body + Fence;
    assert JsonFence[3..7] == "json";
    if |body| >= 4 {
      assert core[3..7] == body[..4];
      assert core[3..7] != JsonFence[3..7];
    } else {
      assert core[3 + |body|] == '`';
      assert JsonFence[3 + |body|] != '`';
    }
    assert !StartsWith(core, JsonFence);
    assert StartsWith(core, Fence) by { assert core[..|Fence|] == Fence; }
    var s3 := core[|Fence|..];
    assert s3 == body + Fence;
    assert EndsWith(s3, Fence);
    assert s3[..|s3| - |Fence|] == body;
  }

  lemma FencedTrimmed(open: string, body: string)
    requires open == JsonFence || open == Fence
    ensures Trimmed(open + body + Fence)
  {
    var core := open + body + Fence;
    assert core[0] == open[0] == '`';
    assert core[|core| - 1] == Fence[2] == '`';
  }

  /** "```json" + body + "```" cleans to the stripped body. */
  lemma CleanResponseJsonFencedBare(body: string)
    requires !StartsWith(body, Fence)
    ensures CleanResponse(JsonFence + body + Fence) == Strip(body)
  {
    FencedTrimmed(JsonFence, body);
    StripNoop(JsonFence + body + Fence);
    DropFencesJson(body);
  }

  /** "```json" + body + "```", with any whitespace around it, cleans to the stripped body. */
  lemma CleanResponseJsonFenced(w1: string, body: string, w2: string)
    requires AllSpace(w1) && AllSpace(w2)
    requires !StartsWith(body, Fence)
    ensures CleanResponse(w1 + JsonFence + body + Fence + w2) == Strip(body)
  {
    var core := JsonFence + body + Fence;
    FencedTrimmed(JsonFence, body);
    assert w1 + JsonFence + body + Fence + w2 == w1 + core + w2;
    StripPadded(w1, core, w2);
    DropFencesJson(body);
  }

  /** "```" + body + "```" (no language tag), with any whitespace around it, cleans to the stripped body. */
  lemma CleanResponsePlainFenced(w1: string, body: string, w2: string)
    requires AllSpace(w1) && AllSpace(w2)
    requires !StartsWith(body, Fence) && !StartsWith(body, "json")
    ensures CleanResponse(w1 + Fence + body + Fence + w2) == Strip(body)
  {
    var core := Fence + body + Fence;
    FencedTrimmed(Fence, body);
    assert w1 + Fence + body + Fence + w2 == w1 + core + w2;
    StripPadded(w1, core, w2);
    DropFencesPlain(body);
  }

  // ---------------------------------------------------------------------------
  // Roadmap selection (generate_roadmap)
  // ---------------------------------------------------------------------------

  /** The fixed one-day document returned when the cleaned reply does not decode. */
  const FallbackDay: Json := JObject([
    ("day", JNumber(1)),
    ("title", JString("Getting Started")),
    ("tasks", JArray([JString("Introduction to the topic"), JString("Basic concepts")])),
    ("lesson", JString("Welcome to your learning journey! Today we'll start with the fundamentals and build a strong foundation."))
  ])

  const FallbackRoadmap: Json := JObject([
    ("topic", JString("Learning Topic")),
    ("summary", JString("A comprehensive learning roadmap to help you master your chosen subject.")),
    ("days", JArray([FallbackDay]))
  ])

  /**
   * `generate_roadmap(summary)`, given the outcome of the model call and the decoder.
   * A missing project id raises before anything else; an exception from the model
   * propagates; an empty cleaned text raises (it is not a decode error, so it is not
   * caught); a `JSONDecodeError` gives the fallback; any other exception of `json.loads`
   * propagates; a decoded value is returned as is.
   */
  function GenerateRoadmap(projectId: Option<string>, reply: LlmReply, decode: string -> Decoded): (r: Result<Json, Failure>)
  {
    if !Configured(projectId) then Failure(ProjectNotConfigured)
    else match reply
      case Raised(e) => Failure(ModelFailed(e))
      case Replied(t) => DecodeOrFallback(CleanResponse(t), decode)
  }

  /**
   * The `try` around `json.loads`: an empty text raises, a `JSONDecodeError` gives the
   * fallback, and any other exception escapes the `except` clause.
   */
  function DecodeOrFallback(cleaned: string, decode: string -> Decoded): Result<Json, Failure>
  {
    if cleaned == "" then Failure(EmptyResponse)
    else match decode(cleaned)
      case Loaded(doc) => Success(doc)
      case DecodeError => Success(FallbackRoadmap)
      case LoadsRaised(e) => Failure(DecodeFailed(e))
  }

  /** A key's value is the one of its last occurrence. */
  lemma {:induction false} LookupAt(members: seq<(string, Json)>, key: string, k: nat)
    requires k < |members| && members[k].0 == key
    requires forall j :: k < j < |members| ==> members[j].0 != key
    ensures Lookup(members, key) == Some(members[k].1)
    decreases |members|
  {
    if k < |members| - 1 {
      LookupAt(members[..|members| - 1], key, k);
    }
  }

  /** The fallback has topic "Learning Topic" and exactly one day: day 1, "Getting Started", two tasks. */
  lemma FallbackShape()
    ensures Field(FallbackRoadmap, "topic") == Some(JString("Learning Topic"))
    ensures Field(FallbackRoadmap, "days") == Some(JArray([FallbackDay]))
    ensures Field(FallbackDay, "day") == Some(JNumber(1))
    ensures Field(FallbackDay, "title") == Some(JString("Getting Started"))
    ensures Field(FallbackDay, "tasks").Some? && Field(FallbackDay, "tasks").value.JArray?
    ensures |Field(FallbackDay, "tasks").value.items| == 2
  {
    var top, day := FallbackRoadmap.members, FallbackDay.members;
    LookupAt(top, "topic", 0);
    LookupAt(top, "days", 2);
    LookupAt(day, "day", 0);
    assert "tasks"[1] != "title"[1];
    LookupAt(day, "title", 1);
    LookupAt(day, "tasks", 2);
  }

  /**
   * `generate_roadmap` raises exactly when the project is unset, the model call fails, the
   * cleaned reply is empty, or `json.loads` raises something other than `JSONDecodeError`.
   */
  lemma GenerateRoadmapFailsIff(projectId: Option<string>, reply: LlmReply, decode: string -> Decoded)
    ensures GenerateRoadmap(projectId, reply, decode).Failure? <==>
      !Configured(projectId) || reply.Raised? || CleanResponse(reply.text) == ""
      || decode(CleanResponse(reply.text)).LoadsRaised?
  {
  }

  /** A blank reply raises instead of falling back. */
  lemma BlankReplyRaises(projectId: Option<string>, t: string, decode: string -> Decoded)
    requires Configured(projectId) && AllSpace(t)
    ensures GenerateRoadmap(projectId, Replied(t), decode) == Failure(EmptyResponse)
  {
    StripEmptyIff(t);
    assert DropFences([]) == [];
    StripNoop([]);
  }

  /** So does a reply that is nothing but a pair of fences around whitespace. */
  lemma FencesOnlyReplyRaises(projectId: Option<string>, ws: string, decode: string -> Decoded)
    requires Configured(projectId) && AllSpace(ws)
    ensures GenerateRoadmap(projectId, Replied(JsonFence + ws + Fence), decode) == Failure(EmptyResponse)
  {
    if |ws| >= |Fence| {
      assert ws[..|Fence|][0] == ws[0];
      assert IsSpace(ws[0]) && !IsSpace(Fence[0]);
    }
    CleanResponseJsonFencedBare(ws);
    StripEmptyIff(ws);
    var c := CleanResponse(JsonFence + ws + Fence);
    assert c == [];
    assert GenerateRoadmap(projectId, Replied(JsonFence + ws + Fence), decode) == DecodeOrFallback(c, decode);
  }

  /**
   * A non-empty cleaned reply is what `json.loads` makes of it: the decoded value, the
   * fallback on a `JSONDecodeError`, and an escaping exception for any other error.
   */
  lemma NonEmptyReplyOutcome(projectId: Option<string>, t: string, decode: string -> Decoded)
    requires Configured(projectId) && CleanResponse(t) != ""
    ensures decode(CleanResponse(t)).Loaded? ==>
      GenerateRoadmap(projectId, Replied(t), decode) == Success(decode(CleanResponse(t)).doc)
    ensures decode(CleanResponse(t)).DecodeError? ==>
      GenerateRoadmap(projectId, Replied(t), decode) == Success(FallbackRoadmap)
    ensures decode(CleanResponse(t)).LoadsRaised? ==>
      GenerateRoadmap(projectId, Replied(t), decode) == Failure(DecodeFailed(decode(CleanResponse(t)).detail))
  {
    var c := CleanResponse(t);
    assert GenerateRoadmap(projectId, Replied(t), decode) == DecodeOrFallback(c, decode);
  }

  /** A fenced JSON reply is decoded from the stripped text between the fences. */
  lemma FencedReplyDecodesBody(projectId: Option<string>, body: string, decode: string -> Decoded)
    requires Configured(projectId) && !StartsWith(body, Fence) && Strip(body) != ""
    ensures decode(Strip(body)).Loaded? ==>
      GenerateRoadmap(projectId, Replied(JsonFence + body + Fence), decode) == Success(decode(Strip(body)).doc)
    ensures decode(Strip(body)).DecodeError? ==>
      GenerateRoadmap(projectId, Replied(JsonFence + body + Fence), decode) == Success(FallbackRoadmap)
    ensures decode(Strip(body)).LoadsRaised? ==>
      GenerateRoadmap(projectId, Replied(JsonFence + body + Fence), decode) == Failure(DecodeFailed(decode(Strip(body)).detail))
  {
    CleanResponseJsonFencedBare(body);
    var c := CleanResponse(JsonFence + body + Fence);
    assert c == Strip(body);
    assert GenerateRoadmap(projectId, Replied(JsonFence + body + Fence), decode) == DecodeOrFallback(c, decode);
  }

  // ---------------------------------------------------------------------------
  // Conversational reply (get_gemini_response)
  // ---------------------------------------------------------------------------

  const TroubleConnecting: string := "I'm having trouble connecting." + " Could you please repeat that?"
  const TroubleUnderstanding: string := "I'm having trouble understanding." + " Could you please repeat that?"

  /** `get_gemini_response(prompt)`: never raises; apologises when unconfigured, failing or silent. */
  function GetGeminiResponse(projectId: Option<string>, reply: LlmReply): (r: string)
  {
    if !Configured(projectId) then TroubleConnecting
    else match reply
      case Raised(_) => TroubleUnderstanding
      case Replied(t) => if t == "" then TroubleUnderstanding else Strip(t)
  }

  /** The reply is always stripped text, and it is the model's own text exactly when the call succeeded with some text. */
  lemma GeminiResponseTrimmed(projectId: Option<string>, reply: LlmReply)
    ensures Trimmed(GetGeminiResponse(projectId, reply))
    ensures Configured(projectId) && reply.Replied? && reply.text != "" ==>
      GetGeminiResponse(projectId, reply) == Strip(reply.text)
  {
    if !Configured(projectId) {
      assert TroubleConnecting[0] == 'I' && TroubleConnecting[|TroubleConnecting| - 1] == '?';
    } else if reply.Raised? || reply.text == "" {
      assert TroubleUnderstanding[0] == 'I' && TroubleUnderstanding[|TroubleUnderstanding| - 1] == '?';
    } else {
      StripTrimmed(reply.text);
    }
  }

  /** The reply is empty exactly when the model answered with nothing but whitespace. */
  lemma GeminiResponseEmptyIff(projectId: Option<string>, reply: LlmReply)
    ensures GetGeminiResponse(projectId, reply) == "" <==>
      Configured(projectId) && reply.Replied? && reply.text != "" && AllSpace(reply.text)
  {
    if Configured(projectId) && reply.Replied? && reply.text != "" {
      StripEmptyIff(reply.text);
    }
  }
}
