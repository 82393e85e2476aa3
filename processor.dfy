/** The thought processor: the prompt sent to the structuring model, the
    parse of its reply (with the fallback that cuts the JSON object out of
    surrounding prose) and the tolerant construction of an episode from the
    parsed fields. The model call and the JSON decoder are parameters. */
module Processor {
  import opened Wrappers
  import opened Text
  import opened Models

  // ---------------------------------------------------------------------
  // The user prompt

  const ThinkingHeader: string := "## TEXTO DE RAZONAMIENTO (THINKING):\n"
  const PromptHeader: string := "\n\n## PROMPT ORIGINAL DEL USUARIO:\n"
  const CodeHeader: string := "\n\n## CAMBIOS DE CÓDIGO:\n```\n"
  const CodeClose: string := "\n```"
  const Instruction: string := "\n\n---\nEstructura este razonamiento en el formato JSON especificado."

  /** The user-prompt section, present when the original prompt is non-empty. */
  function PromptSection(userPrompt: Option<string>): string {
    if Given(userPrompt) then PromptHeader + userPrompt.value else ""
  }

  /** The code section, present when code changes are non-empty. */
  function CodeSection(codeChanges: Option<string>): string {
    if Given(codeChanges) then CodeHeader + codeChanges.value + CodeClose else ""
  }

  /** The prompt as one text: thinking, then the optional sections, then the instruction. */
  function UserPrompt(input: ProcessedInput): string {
    ThinkingHeader + input.rawText + PromptSection(input.userPrompt) + CodeSection(input.codeChanges) + Instruction
  }

  /** The prompt starts with the thinking header and the raw text and ends with the
      instruction; each optional section sits at its place exactly when its input is
      non-empty, and the prompt is no longer than its parts. */
  lemma UserPromptShape(input: ProcessedInput)
    ensures var p := UserPrompt(input);
            StartsWith(p, ThinkingHeader + input.rawText) && EndsWith(p, Instruction) &&
            |p| == |ThinkingHeader| + |input.rawText| + |PromptSection(input.userPrompt)| +
                   |CodeSection(input.codeChanges)| + |Instruction|
    ensures var p := UserPrompt(input);
            var afterRaw := |ThinkingHeader| + |input.rawText|;
            Given(input.userPrompt) ==> StartsWith(p[afterRaw..], PromptHeader + input.userPrompt.value)
    ensures var p := UserPrompt(input);
            Given(input.codeChanges) ==> EndsWith(p[..|p| - |Instruction|], CodeHeader + input.codeChanges.value + CodeClose)
    ensures !Given(input.userPrompt) && !Given(input.codeChanges) ==>
              UserPrompt(input) == ThinkingHeader + input.rawText + Instruction
  {
    var head := ThinkingHeader + input.rawText;
    var ps := PromptSection(input.userPrompt);
    var cs := CodeSection(input.codeChanges);
    var p := UserPrompt(input);
    assert p == head + (ps + cs + Instruction);
    assert p == (head + ps + cs) + Instruction;
    assert p[|head|..] == ps + cs + Instruction;
    assert p[..|p| - |Instruction|] == head + ps + cs;
  }

  /** Appending a part to an empty-separator join appends its text. */
  lemma ConcatSnoc(parts: seq<string>, last: string)
    requires |parts| > 0
    ensures Join("", parts + [last]) == Join("", parts) + last
  {
    JoinAppend("", parts, last);
  }

  lemma ConcatSnoc2(parts: seq<string>, a: string, b: string)
    requires |parts| > 0
    ensures Join("", parts + [a, b]) == Join("", parts) + (a + b)
  {
    var pa := parts + [a];
    assert pa + [b] == parts + [a, b];
    ConcatSnoc(parts, a);
    ConcatSnoc(pa, b);
    var x := Join("", parts);
    assert Join("", pa + [b]) == (x + a) + b;
    ConcatAssoc(x, a, b);
  }

  lemma ConcatSnoc3(parts: seq<string>, a: string, b: string, c: string)
    requires |parts| > 0
    ensures Join("", parts + [a, b, c]) == Join("", parts) + (a + b + c)
  {
    var pab := parts + [a, b];
    assert pab + [c] == parts + [a, b, c];
    ConcatSnoc2(parts, a, b);
    ConcatSnoc(pab, c);
    var x := Join("", parts);
    assert Join("", pab + [c]) == (x + (a + b)) + c;
    ConcatAssoc(x, a + b, c);
  }

  lemma ConcatAssoc(x: string, a: string, b: string)
    ensures (x + a) + b == x + (a + b)
  {
  }

  /** `_build_user_prompt`: appends the parts in order and joins them. */
  method BuildUserPrompt(input: ProcessedInput) returns (prompt: string)
    ensures prompt == UserPrompt(input)
  {
    var parts := [ThinkingHeader];
    ConcatSnoc(parts, input.rawText);
    parts := parts + [input.rawText];
    if Given(input.userPrompt) {
      ConcatSnoc2(parts, PromptHeader, input.userPrompt.value);
      parts := parts + [PromptHeader, input.userPrompt.value];
    }
    assert Join("", parts) == ThinkingHeader + input.rawText + PromptSection(input.userPrompt);
    if Given(input.codeChanges) {
      ConcatSnoc3(parts, CodeHeader, input.codeChanges.value, CodeClose);
      parts := parts + [CodeHeader, input.codeChanges.value, CodeClose];
    }
    assert Join("", parts) == ThinkingHeader + input.rawText + PromptSection(input.userPrompt) + CodeSection(input.codeChanges);
    ConcatSnoc(parts, Instruction);
    parts := parts + [Instruction];
    prompt := Join("", parts);
  }

  // ---------------------------------------------------------------------
  // Extracting the JSON object from a reply

  /** The first position of `c` in `s`. */
  function FirstIndex(s: string, c: char): (r: Option<nat>)
    ensures r.Some? ==> r.value < |s| && s[r.value] == c && forall k :: 0 <= k < r.value ==> s[k] != c
    ensures r.None? ==> forall k :: 0 <= k < |s| ==> s[k] != c
    decreases |s|
  {
    if |s| == 0 then None
    else if s[0] == c then Some(0)
    else
      match FirstIndex(s[1..], c)
      case None => None
      case Some(i) => Some(i + 1)
  }

  /** The last position of `c` in `s`. */
  function LastIndex(s: string, c: char): (r: Option<nat>)
    ensures r.Some? ==> r.value < |s| && s[r.value] == c && forall k :: r.value < k < |s| ==> s[k] != c
    ensures r.None? ==> forall k :: 0 <= k < |s| ==> s[k] != c
    decreases |s|
  {
    if |s| == 0 then None
    else if s[|s| - 1] == c then Some(|s| - 1)
    else LastIndex(s[..|s| - 1], c)
  }

  /** The leftmost-longest match of a `{`, anything, then a `}`: it starts at the first `{`
      and ends at the last `}`, when that `}` comes after the `{`. */
  function JsonBounds(text: string): (r: Option<(nat, nat)>)
    ensures r.Some? ==> r.value.0 < r.value.1 < |text| && text[r.value.0] == '{' && text[r.value.1] == '}'
    ensures r.Some? ==> (forall k :: 0 <= k < r.value.0 ==> text[k] != '{') &&
                        (forall k :: r.value.1 < k < |text| ==> text[k] != '}')
    ensures r.None? <==> forall i, j :: 0 <= i < j < |text| && text[i] == '{' ==> text[j] != '}'
  {
    match FirstIndex(text, '{')
    case None => None
    case Some(i) =>
      match LastIndex(text, '}')
      case None => None
      case Some(j) => if i < j then Some((i, j)) else None
  }

  /** The text of that match: an object-shaped span, when there is one. */
  function JsonSpan(text: string): (r: Option<string>)
    ensures r.None? <==> JsonBounds(text).None?
    ensures r.Some? ==> r.value == text[JsonBounds(text).value.0..JsonBounds(text).value.1 + 1]
    ensures r.Some? ==> |r.value| >= 2 && r.value[0] == '{' && r.value[|r.value| - 1] == '}'
  {
    match JsonBounds(text)
    case None => None
    case Some((i, j)) => Some(text[i..j + 1])
  }

  /** The fields the structuring model may return; an absent key is `None`. */
  datatype TraceData = TraceData(
    rawThinking: Option<string>,
    alternatives: Option<seq<string>>,
    decisionFactors: Option<seq<string>>,
    confidenceLevel: Option<real>)

  datatype StructuredData = StructuredData(
    task: Option<string>,
    context: Option<string>,
    reasoningTrace: Option<TraceData>,
    solution: Option<string>,
    solutionSummary: Option<string>,
    episodeType: Option<string>,
    tags: Option<seq<string>>,
    filesAffected: Option<seq<string>>,
    lessons: Option<seq<string>>)

  /** The decoder of a JSON text into the fields above; `None` is a decoding error. */
  type JsonDecoder = string -> Option<StructuredData>

  datatype ProcessError =
    | NoJsonFound          // the reply neither decodes nor holds a `{`...`}` span
    | InvalidJson          // the span was found but does not decode
    | Invalid(fields: seq<string>)   // the parsed fields fail the schema
    | ModelError(message: string)    // the model call itself raised
    | RetryExhausted(last: ProcessError)   // every attempt failed; the last failure

  /** Decodes the reply; when that fails, decodes the span from the first `{` to the last `}`. */
  function ParseReply(text: string, decode: JsonDecoder): (r: Result<StructuredData, ProcessError>)
    ensures decode(text).Some? ==> r == Success(decode(text).value)
    ensures decode(text).None? && JsonSpan(text).None? ==> r == Failure(NoJsonFound)
    ensures decode(text).None? && JsonSpan(text).Some? ==>
              r == (if decode(JsonSpan(text).value).Some? then Success(decode(JsonSpan(text).value).value)
                    else Failure(InvalidJson))
  {
    match decode(text)
    case Some(d) => Success(d)
    case None =>
      match JsonSpan(text)
      case None => Failure(NoJsonFound)
      case Some(span) =>
        match decode(span)
        case Some(d) => Success(d)
        case None => Failure(InvalidJson)
  }

  // ---------------------------------------------------------------------
  // Building the episode

  const DefaultTask: string := "Tarea no especificada"
  const DefaultContext: string := "Contexto no especificado"

  /** `EpisodeType(s)`, falling back to a decision for an unknown value. */
  function TypeOrDecision(s: string): (t: EpisodeType)
    ensures (exists k :: TypeValue(k) == s) ==> TypeValue(t) == s
    ensures (forall k :: TypeValue(k) != s) ==> t == Decision
  {
    ParseType(s).GetOr(Decision)
  }

  const NoTrace: TraceData := TraceData(None, None, None, None)

  /** `_build_episode`: every absent field takes its default; the raw thinking falls back to
      the task (or nothing); the project and assistant come from the caller, never from the
      model's fields. The identifier and creation time are the defaults the record draws. */
  function BuildEpisode(data: StructuredData, project: string, assistant: string, id: string, now: int)
    : (r: Result<Episode, ProcessError>)
    ensures var rt := data.reasoningTrace.GetOr(NoTrace);
            r.Success? <==> rt.confidenceLevel.None? || InUnit(rt.confidenceLevel.value)
    ensures r.Failure? ==> r.error == Invalid(["confidence_level"])
    ensures r.Success? ==>
              var e := r.value;
              e.Valid() && e.HasDefaultUsage() && e.id == id && e.timestamp == now &&
              e.projectName == project && e.sourceAssistant == assistant
    ensures r.Success? ==>
              var e := r.value;
              var rt := data.reasoningTrace.GetOr(NoTrace);
              e.task == data.task.GetOr(DefaultTask) && e.context == data.context.GetOr(DefaultContext) &&
              e.trace.rawThinking == rt.rawThinking.GetOr(data.task.GetOr("")) &&
              e.trace.alternatives == rt.alternatives.GetOr([]) && e.trace.decisionFactors == rt.decisionFactors.GetOr([]) &&
              e.trace.confidenceLevel == rt.confidenceLevel &&
              e.solution == data.solution.GetOr("") && e.solutionSummary == data.solutionSummary.GetOr("") &&
              e.tags == data.tags.GetOr([]) && e.filesAffected == data.filesAffected.GetOr([]) &&
              e.lessons == data.lessons.GetOr([]) &&
              e.episodeType == TypeOrDecision(data.episodeType.GetOr("decision"))
  {
    var rt := data.reasoningTrace.GetOr(NoTrace);
    var trace := NewReasoningTrace(rt.rawThinking.GetOr(data.task.GetOr("")), rt.alternatives.GetOr([]),
                                   rt.decisionFactors.GetOr([]), rt.confidenceLevel);
    if trace.Failure? then Failure(Invalid(trace.error))
    else
      Success(NewEpisode(id, now, data.task.GetOr(DefaultTask), data.context.GetOr(DefaultContext), trace.value,
                         data.solution.GetOr(""), data.solutionSummary.GetOr(""),
                         TypeOrDecision(data.episodeType.GetOr("decision")),
                         data.tags.GetOr([]), data.filesAffected.GetOr([]), data.lessons.GetOr([]),
                         assistant, project))
  }

  /** The fields a freshly captured episode would be described by. */
  function DataOf(e: Episode): StructuredData {
    StructuredData(Some(e.task), Some(e.context),
                   Some(TraceData(Some(e.trace.rawThinking), Some(e.trace.alternatives),
                                  Some(e.trace.decisionFactors), e.trace.confidenceLevel)),
                   Some(e.solution), Some(e.solutionSummary), Some(TypeValue(e.episodeType)),
                   Some(e.tags), Some(e.filesAffected), Some(e.lessons))
  }

  /** Building from a full description of a valid, freshly captured episode gives that
      episode back. */
  lemma BuildEpisodeRoundTrip(e: Episode)
    requires e.Valid() && e.HasDefaultUsage() && e.outcome.None? && e.success
    ensures BuildEpisode(DataOf(e), e.projectName, e.sourceAssistant, e.id, e.timestamp) == Success(e)
  {
    ParseTypeValue(e.episodeType);
  }

  /** With no fields at all, the episode is made of the placeholders. */
  lemma BuildEpisodeDefaults(project: string, assistant: string, id: string, now: int)
    ensures var r := BuildEpisode(StructuredData(None, None, None, None, None, None, None, None, None), project, assistant, id, now);
            r.Success? && r.value.task == DefaultTask && r.value.context == DefaultContext &&
            r.value.trace.rawThinking == "" && r.value.episodeType == Decision &&
            r.value.solution == "" && r.value.tags == [] && r.value.lessons == []
  {
    ParseTypeValue(Decision);
  }

  /** One attempt of `process_thought`: prompt, model reply, parse with fallback, then the
      episode. */
  function Attempt(
    input: ProcessedInput, project: string, assistant: string,
    generate: string -> Result<string, string>, decode: JsonDecoder, id: string, now: int)
    : (r: Result<Episode, ProcessError>)
    ensures r.Success? ==> r.value.projectName == project && r.value.sourceAssistant == assistant && r.value.Valid()
    ensures var reply := generate(UserPrompt(input));
            r.Success? <==> reply.Success? && ParseReply(reply.value, decode).Success? &&
                            BuildEpisode(ParseReply(reply.value, decode).value, project, assistant, id, now).Success?
    ensures var reply := generate(UserPrompt(input));
            r.Success? ==> r == BuildEpisode(ParseReply(reply.value, decode).value, project, assistant, id, now)
    ensures var reply := generate(UserPrompt(input));
            r == Failure(NoJsonFound) <==> reply.Success? && decode(reply.value).None? && JsonSpan(reply.value).None?
    ensures var reply := generate(UserPrompt(input));
            reply.Failure? ==> r == Failure(ModelError(reply.error))
  {
    match generate(UserPrompt(input))
    case Failure(message) => Failure(ModelError(message))
    case Success(reply) =>
      match ParseReply(reply, decode)
      case Failure(err) => Failure(err)
      case Success(data) => BuildEpisode(data, project, assistant, id, now)
  }

  /** Every failure is retried, up to three attempts in all. */
  const MaxAttempts: nat := 3

  /** The model as the attempts see it: attempt `k` gets `generate(k)` for the prompt. The
      identifier and the clock are those of the attempt whose episode is returned. */
  type Model = nat -> (string -> Result<string, string>)

  function AttemptNo(
    k: nat, input: ProcessedInput, project: string, assistant: string,
    generate: Model, decode: JsonDecoder, id: string, now: int): Result<Episode, ProcessError>
  {
    Attempt(input, project, assistant, generate(k), decode, id, now)
  }

  /** The outcome of a run of attempts: the first that succeeds, or the last failure when
      none does. */
  function FirstSuccess<T, E>(attempts: seq<Result<T, E>>): (r: Result<T, E>)
    requires |attempts| > 0
    ensures r.Success? ==>
              exists j :: 0 <= j < |attempts| && r == attempts[j] && forall i :: 0 <= i < j ==> attempts[i].Failure?
    ensures r.Failure? <==> forall j :: 0 <= j < |attempts| ==> attempts[j].Failure?
    ensures r.Failure? ==> r == attempts[|attempts| - 1]
  {
    if attempts[0].Success? || |attempts| == 1 then attempts[0]
    else
      var r := FirstSuccess(attempts[1..]);
      assert forall j :: 1 <= j < |attempts| ==> attempts[j] == attempts[1..][j - 1];
      r
  }

  /** The outcomes of the three attempts, in order. */
  function Attempts(
    input: ProcessedInput, project: string, assistant: string,
    generate: Model, decode: JsonDecoder, id: string, now: int): (r: seq<Result<Episode, ProcessError>>)
    ensures |r| == MaxAttempts
    ensures forall k :: 0 <= k < MaxAttempts ==> r[k] == AttemptNo(k, input, project, assistant, generate, decode, id, now)
  {
    seq(MaxAttempts, k requires 0 <= k < MaxAttempts =>
          AttemptNo(k, input, project, assistant, generate, decode, id, now))
  }

  /** `process_thought` under its retry policy: up to three attempts, each with a fresh model
      call. The episode of the first attempt that succeeds is returned; when all three fail,
      the retry error carries the last attempt's failure. */
  function ProcessThought(
    input: ProcessedInput, project: string, assistant: string,
    generate: Model, decode: JsonDecoder, id: string, now: int): (r: Result<Episode, ProcessError>)
    ensures var attempts := Attempts(input, project, assistant, generate, decode, id, now);
            r.Success? ==>
              exists j :: 0 <= j < MaxAttempts && r == attempts[j] && forall i :: 0 <= i < j ==> attempts[i].Failure?
    ensures var attempts := Attempts(input, project, assistant, generate, decode, id, now);
            r.Failure? <==> forall j :: 0 <= j < MaxAttempts ==> attempts[j].Failure?
    ensures r.Failure? ==>
              r.error == RetryExhausted(AttemptNo(MaxAttempts - 1, input, project, assistant, generate, decode, id, now).error)
  {
    match FirstSuccess(Attempts(input, project, assistant, generate, decode, id, now))
    case Success(e) => Success(e)
    case Failure(last) => Failure(RetryExhausted(last))
  }

  /** A produced episode is valid and carries the given project and assistant, whichever
      attempt produced it. */
  lemma ProcessedEpisodeValid(
    input: ProcessedInput, project: string, assistant: string,
    generate: Model, decode: JsonDecoder, id: string, now: int)
    ensures var r := ProcessThought(input, project, assistant, generate, decode, id, now);
            r.Success? ==> r.value.projectName == project && r.value.sourceAssistant == assistant && r.value.Valid()
  {
    var r := ProcessThought(input, project, assistant, generate, decode, id, now);
    if r.Success? {
      var attempts := Attempts(input, project, assistant, generate, decode, id, now);
      var j :| 0 <= j < MaxAttempts && r == attempts[j];
      assert r == AttemptNo(j, input, project, assistant, generate, decode, id, now);
    }
  }

  /** A first attempt that succeeds is the whole story: the model is called once more only
      after a failure. */
  lemma FirstAttemptWins(
    input: ProcessedInput, project: string, assistant: string,
    generate: Model, decode: JsonDecoder, id: string, now: int)
    requires AttemptNo(0, input, project, assistant, generate, decode, id, now).Success?
    ensures ProcessThought(input, project, assistant, generate, decode, id, now) ==
            AttemptNo(0, input, project, assistant, generate, decode, id, now)
  {
  }

  /** A model that never answers with JSON exhausts the retries with "no JSON found". */
  lemma NoJsonExhausts(
    input: ProcessedInput, project: string, assistant: string,
    generate: Model, decode: JsonDecoder, id: string, now: int)
    requires forall k: nat :: generate(k)(UserPrompt(input)).Success? &&
               decode(generate(k)(UserPrompt(input)).value).None? && JsonSpan(generate(k)(UserPrompt(input)).value).None?
    ensures ProcessThought(input, project, assistant, generate, decode, id, now) == Failure(RetryExhausted(NoJsonFound))
  {
    var p := ProcessThought(input, project, assistant, generate, decode, id, now);
    forall j | 0 <= j < MaxAttempts
      ensures AttemptNo(j, input, project, assistant, generate, decode, id, now) == Failure(NoJsonFound)
    {
    }
  }
}
