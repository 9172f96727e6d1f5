/**
 * The local behaviour of `generateApology`: the instruction prompt it sends
 * to the text-generation provider, the model it asks for, and the
 * `trim().toLowerCase()` post-processing of the provider's reply. The
 * provider call itself is not modelled; its reply is a parameter.
 */
module GenerateApology {
  import opened Wrappers
  import opened JsString

  const DefaultModel := "gpt-4o-mini"

  const Intro := "\nyou are writing a personal apology email on behalf of amogh.\n\n"
  const ToneLabel := "tone: "
  const ContextHeading := "\n\ncontext (optional):\n"
  const Placeholder := "no additional context provided."
  const Rules :=
    "\n\nrules:\n"
    + "- write everything in lowercase\n"
    + "- keep it under 100 words\n"
    + "- the tone must be clearly felt within the first two lines\n"
    + "- be emotionally honest, not dramatic\n"
    + "- no guilt-tripping, no manipulation\n"
    + "- no unrealistic promises\n"
    + "- end gently, without pressure\n"
    + "\nwrite only the email body.\n"
    + "do not include a subject.\n"
    + "do not include explanations.\n"

  /** `process.env.OPENAI_MODEL || "gpt-4o-mini"`. */
  function ModelName(env: Value): (m: string)
    ensures m != ""
    ensures Truthy(env) ==> m == env.s
    ensures !Truthy(env) ==> m == DefaultModel
  {
    if Truthy(env) then env.s else DefaultModel
  }

  /** The text placed under the context heading: `userMessage || placeholder`. */
  function ContextText(userMessage: Value): (c: string)
    ensures c != ""
    ensures Truthy(userMessage) ==> c == userMessage.s
    ensures !Truthy(userMessage) ==> c == Placeholder
  {
    if Truthy(userMessage) then userMessage.s else Placeholder
  }

  /** Where each of the six parts of a prompt sits. */
  lemma Layout(a: string, b: string, c: string, d: string, x: string, e: string)
    ensures var p := a + b + c + d + x + e; var k := |a| + |b| + |c|;
      && |p| == k + |d| + |x| + |e|
      && p[..|a|] == a
      && p[|a|..k] == b + c
      && p[k..k + |d|] == d
      && p[k + |d|..|p| - |e|] == x
      && |p| >= |e| && p[|p| - |e|..] == e
  {
    var p := a + b + c + d + x + e;
    var k := |a| + |b| + |c|;
    assert p == a + (b + c) + d + x + e;
    assert p[k..k + |d|] == d;
  }

  /** The instruction prompt built from the template literal. */
  function Prompt(tone: Value, userMessage: Value): (p: string)
    ensures |p| == |Intro| + |ToneLabel| + |Interpolate(tone)| + |ContextHeading|
                   + |ContextText(userMessage)| + |Rules|
    ensures p[..|Intro|] == Intro
    ensures var t := Interpolate(tone); var k := |Intro| + |ToneLabel| + |t|;
      && p[|Intro|..k] == ToneLabel + t
      && p[k..k + |ContextHeading|] == ContextHeading
      && p[k + |ContextHeading|..|p| - |Rules|] == ContextText(userMessage)
    ensures |p| >= |Rules| && p[|p| - |Rules|..] == Rules
  {
    Layout(Intro, ToneLabel, Interpolate(tone), ContextHeading, ContextText(userMessage), Rules);
    Intro + ToneLabel + Interpolate(tone) + ContextHeading + ContextText(userMessage) + Rules
  }

  /** The text of `s` up to, not including, its first line feed. */
  function LineOf(s: string): (l: string)
    ensures |l| <= |s| && l == s[..|l|] && '\n' !in l
    ensures |l| < |s| ==> s[|l|] == '\n'
  {
    if s == [] || s[0] == '\n' then []
    else [s[0]] + LineOf(s[1..])
  }

  lemma {:induction false} LineOfStopsAtNewline(x: string, y: string)
    requires '\n' !in x
    ensures LineOf(x + "\n" + y) == x
  {
    if x != [] {
      assert (x + "\n" + y)[1..] == x[1..] + "\n" + y;
      LineOfStopsAtNewline(x[1..], y);
    }
  }

  /** Reads the tone back from a prompt: the rest of the line after "tone: ". */
  function ParseTone(p: string): (r: Option<string>)
    ensures r.Some? ==> |p| >= |Intro| + |ToneLabel| && p[..|Intro| + |ToneLabel|] == Intro + ToneLabel && '\n' !in r.value
  {
    var n := |Intro| + |ToneLabel|;
    if |p| >= n && p[..n] == Intro + ToneLabel then Some(LineOf(p[n..])) else None
  }

  lemma {:induction false} ParseLine(pre: string, t: string, rest: string)
    requires pre == Intro + ToneLabel && '\n' !in t
    ensures ParseTone(pre + t + "\n" + rest) == Some(t)
  {
    var p := pre + t + "\n" + rest;
    assert p[..|pre|] == pre;
    assert p[|pre|..] == t + "\n" + rest;
    LineOfStopsAtNewline(t, rest);
  }

  /** A tone without line breaks is embedded verbatim, on the `tone:` line. */
  lemma ParseToneRoundTrip(tone: Value, userMessage: Value)
    requires '\n' !in Interpolate(tone)
    ensures ParseTone(Prompt(tone, userMessage)) == Some(Interpolate(tone))
  {
    var t := Interpolate(tone);
    Regroup(Intro, ToneLabel, t, ContextHeading, ContextText(userMessage), Rules);
    ParseLine(Intro + ToneLabel, t, ContextHeading[1..] + ContextText(userMessage) + Rules);
  }

  lemma Regroup(a: string, b: string, t: string, h: string, x: string, e: string)
    requires |h| > 0 && h[0] == '\n'
    ensures a + b + t + h + x + e == (a + b) + t + "\n" + (h[1..] + x + e)
  {
    assert h == "\n" + h[1..];
  }

  /** With the tone fixed, two prompts agree exactly when their contexts do. */
  lemma PromptContextInjective(tone: Value, m1: Value, m2: Value)
    ensures Prompt(tone, m1) == Prompt(tone, m2) <==> ContextText(m1) == ContextText(m2)
  {
    var p1, p2 := Prompt(tone, m1), Prompt(tone, m2);
    var k := |Intro| + |ToneLabel| + |Interpolate(tone)| + |ContextHeading|;
    if p1 == p2 {
      assert p1[k..|p1| - |Rules|] == p2[k..|p2| - |Rules|];
    }
  }

  /** An absent or empty user message yields the fixed placeholder context. */
  lemma FalsyMessageUsesPlaceholder(tone: Value, userMessage: Value)
    requires !Truthy(userMessage)
    ensures Prompt(tone, userMessage) == Prompt(tone, Str(Placeholder))
  {
  }

  datatype ChatMessage = ChatMessage(role: string, content: string)

  /** The completion request; its sampling temperature is not modelled. */
  datatype ChatRequest = ChatRequest(model: string, messages: seq<ChatMessage>)

  /** The request `generateApology` sends to the provider. */
  function BuildRequest(tone: Value, userMessage: Value, envModel: Value): (r: ChatRequest)
    ensures r.model != ""
    ensures |r.messages| == 1 && r.messages[0].role == "user"
    ensures r.messages[0].content == Prompt(tone, userMessage)
    ensures Truthy(envModel) ==> r.model == envModel.s
    ensures !Truthy(envModel) ==> r.model == DefaultModel
  {
    ChatRequest(ModelName(envModel), [ChatMessage("user", Prompt(tone, userMessage))])
  }

  /** `.trim().toLowerCase()` */
  function PostProcess(raw: string): (r: string)
    ensures NoEdgeSpace(r) && IsLower(r) && |r| <= |raw|
    ensures IsTrimOf(ToLower(raw), r)
  {
    TrimToLowerCommute(raw);
    ToLower(Trim(raw))
  }

  /** The post-processed text is already trimmed and lower case. */
  lemma PostProcessFixedPoint(raw: string)
    ensures Trim(PostProcess(raw)) == PostProcess(raw)
    ensures ToLower(PostProcess(raw)) == PostProcess(raw)
  {
    var r := PostProcess(raw);
    assert IsTrimAt(r, r, 0) by {
      assert r[..0] == [] && r[|r|..] == [];
    }
    TrimIsUnique(r, r);
    ToLowerOfLower(r);
  }

  lemma PostProcessIdempotent(raw: string)
    ensures PostProcess(PostProcess(raw)) == PostProcess(raw)
  {
    PostProcessFixedPoint(raw);
  }

  /** What the provider answered: a failure, or the contents of its choices. */
  datatype Completion = ProviderFailure(message: string) | Choices(contents: seq<Value>)

  datatype GenerationError =
    | ProviderError(message: string)   // the provider call rejected
    | NoChoice                         // `choices[0]` is undefined: TypeError
    | NoContent                        // `message.content` is not a string: TypeError

  /** The value `generateApology` resolves to, or the error it rejects with. */
  function Reply(completion: Completion): (r: Result<string, GenerationError>)
    ensures r.Ok? <==> completion.Choices? && |completion.contents| > 0 && completion.contents[0].Str?
    ensures r.Ok? ==> IsTrimOf(ToLower(completion.contents[0].s), r.value)
    ensures r.Ok? ==> NoEdgeSpace(r.value) && IsLower(r.value) && PostProcess(r.value) == r.value
    ensures completion.ProviderFailure? ==> r == Err(ProviderError(completion.message))
    ensures completion.Choices? && |completion.contents| == 0 ==> r == Err(NoChoice)
    ensures completion.Choices? && |completion.contents| > 0 && !completion.contents[0].Str? ==>
      r == Err(NoContent)
    ensures r.Err? && r.error.ProviderError? ==> completion.ProviderFailure?
  {
    match completion
    case ProviderFailure(msg) => Err(ProviderError(msg))
    case Choices(contents) =>
      if |contents| == 0 then Err(NoChoice)
      else if !contents[0].Str? then Err(NoContent)
      else
        var raw := contents[0].s;
        PostProcessIdempotent(raw);
        Ok(PostProcess(raw))
  }
}
