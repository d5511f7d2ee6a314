/** What llm_utils.py does with the generative engine's reply. The engine call itself
    is not modelled: its reply (the message text, or the message of the exception the
    call or the reading of the reply raised) is an input, and `json.loads` is an
    oracle passed in as a function. */
module LlmUtils {
  import opened Wrappers
  import opened PyStr
  import opened JsonValue
  import opened JsonCleaner

  const RefineFailurePrefix: string := "Failed to refine transcript: "
  const ParseFailurePrefix: string := "Failed to parse quiz JSON: "
  const GenerateFailurePrefix: string := "Failed to generate quiz: "

  /** `refine_transcript` once the engine has answered: the reply trimmed, or one
      wrapped error. */
  function RefineTranscript(reply: Outcome<string>): (r: Outcome<string>)
    ensures r.Success? <==> reply.Success?
    ensures r.Success? ==> TrimmedFrom(r.value, reply.value) && NoOuterSpace(r.value)
    ensures r.Failure? ==> r.message == RefineFailurePrefix + reply.message
  {
    match reply
    case Success(content) =>
      StripTrims(content);
      Success(Strip(content))
    case Failure(e) => Failure(RefineFailurePrefix + e)
  }

  /** What `json.loads` makes of a text: a value, a `JSONDecodeError`, or some other
      exception. */
  datatype Decoded = Decoded(value: Json) | DecodeError(message: string) | OtherError(message: string)

  /** The one marker `generate_quiz` removes at the front: "```json", and only that. */
  function DropJsonFence(s: string): (r: string)
    ensures StartsWith(s, JsonFence) ==> s == JsonFence + r
    ensures !StartsWith(s, JsonFence) ==> r == s
  {
    if StartsWith(s, JsonFence) then s[7..] else s
  }

  /** The text `generate_quiz` hands to `json.loads`: the reply trimmed, a leading
      "```json" and a trailing "```" cut off; no second trim, no brace slicing. */
  function QuizPayload(reply: string): (payload: string)
  {
    DropTrailingFence(DropJsonFence(Strip(reply)))
  }

  /** `generate_quiz` once the engine has answered, rebinding the content step by
      step as the source does. A decode error and every other failure are wrapped
      under different prefixes; a decoded value is returned unexamined. */
  method GenerateQuiz(reply: Outcome<string>, loads: string -> Decoded) returns (r: Outcome<Json>)
    ensures reply.Failure? ==> r == Failure(GenerateFailurePrefix + reply.message)
    ensures reply.Success? ==>
      match loads(QuizPayload(reply.value))
      case Decoded(v) => r == Success(v)
      case DecodeError(e) => r == Failure(ParseFailurePrefix + e)
      case OtherError(e) => r == Failure(GenerateFailurePrefix + e)
  {
    if reply.Failure? {
      return Failure(GenerateFailurePrefix + reply.message);
    }
    var content := Strip(reply.value);
    if StartsWith(content, JsonFence) {
      content := content[7..];
    }
    if EndsWith(content, Fence) {
      content := content[..|content| - 3];
    }
    assert content == QuizPayload(reply.value);
    var quizData := loads(content);
    match quizData
    case Decoded(v) => r := Success(v);
    case DecodeError(e) => r := Failure(ParseFailurePrefix + e);
    case OtherError(e) => r := Failure(GenerateFailurePrefix + e);
  }

  /** A bare leading "```" stays in what `generate_quiz` parses: the payload is the
      trimmed reply less at most its last three characters. */
  lemma BareFenceKept(reply: string)
    requires StartsWith(Strip(reply), Fence) && !StartsWith(Strip(reply), JsonFence)
    ensures var t := Strip(reply);
      && QuizPayload(reply) == t[..|QuizPayload(reply)|]
      && |QuizPayload(reply)| >= |t| - 3
      && (|t| >= 6 ==> StartsWith(QuizPayload(reply), Fence))
  {
  }

  /** Where `generate_quiz` agrees with the cleaner: unless the trimmed reply opens
      with a bare "```", the cleaner's result is the payload trimmed again and cut to
      its braces, the two steps `generate_quiz` leaves out. */
  lemma CleanerExtendsPayload(reply: string)
    requires var t := Strip(reply); !StartsWith(t, Fence) || StartsWith(t, JsonFence)
    ensures CleanJson(reply) == BraceSlice(Strip(QuizPayload(reply)))
  {
    var t := Strip(reply);
    assert DropJsonFence(t) == DropLeadingFence(t);
  }

  /** A reply fenced as ``` ... ``` reaches the decoder with its opening fence: only
      the closing one is cut. */
  lemma BareFencedPayload(inner: string)
    requires !StartsWith(inner, "json")
    ensures QuizPayload(Fence + inner + Fence) == Fence + inner
  {
    var s := Fence + inner + Fence;
    FencesDropped(Fence, inner);
    OpensWithJsonFence(Fence, inner);
    assert DropJsonFence(s) == s;
    assert s[..|Fence + inner|] == Fence + inner;
  }

  /** Where they part: the bare-fenced sample reply cleans to the object, but
      `generate_quiz` parses it with both fence characters in front. */
  lemma BareFencedSampleDiverges()
    ensures CleanJson(BareFencedReply) == SampleJson
    ensures QuizPayload(BareFencedReply) == Fence + ("\n" + SampleJson + "\n")
  {
    BareFencedSample();
    var inner := "\n" + SampleJson + "\n";
    assert inner[0] == '\n';
    NotJsonTagged(inner);
    BareFencedPayload(inner);
  }

  /** On the ```json-fenced sample `generate_quiz` parses the object with one newline
      on each side, which `json.loads` skips as whitespace. */
  lemma JsonFencedSamplePayload()
    ensures QuizPayload(JsonFencedReply) == "\n" + SampleJson + "\n"
  {
    var inner := "\n" + SampleJson + "\n";
    assert inner[0] == '\n';
    NotJsonTagged(inner);
    FencesDropped(JsonFence, inner);
  }
}
