# Quiz generation service: reply cleaning, quiz validation and the HTTP handlers

The service takes an uploaded lecture video, extracts its audio, transcribes it,
has a generative language model correct the transcript and then write a ten-question
multiple-choice quiz about it as JSON, and returns that JSON. A second endpoint
evaluates a spoken answer to an exercise. This project models the parts of that
pipeline that are the service's own logic rather than calls into libraries:

- `pystr.dfy` (module `PyStr`): the Python `str` operations the code relies on:
  `strip()` (over the exact set of characters `str.isspace()` accepts), `startswith`,
  `endswith`, `find` and `rfind` of one character (with their -1 for "absent"),
  the substring test `in`, and slicing with non-negative bounds.
- `json_value.dfy` (module `JsonValue`): a decoded JSON value (section 3 of RFC 8259)
  as `json.loads` hands it over, and Python's truth value of it.
- `json_cleaner.dfy` (module `JsonCleaner`): `clean_json_response`, the defensive
  cleaner of a generated reply. It trims the reply, drops a "```json" or "```" fence,
  trims again and cuts the span from the first `{` to the last `}`. The four sample
  replies the script feeds it are proved to clean to the bare object.
- `llm_utils.dfy` (module `LlmUtils`): what `refine_transcript` and `generate_quiz` do
  with the model's reply. That covers the trimming, the narrower fence stripping of
  the production path, and the mapping of exceptions to the two error prefixes. It
  also states where the production path and the cleaner agree and where they differ.
- `quiz_schema.dfy` (module `QuizSchema`): `validate_quiz_structure`, the structural
  check a quiz must pass. It is written as the nested loops of the source and proved
  equal to a declarative `ValidQuiz`.
- `endpoints.dfy` (module `Endpoints`): the handlers of `POST /generate-quiz` and
  `POST /evaluate-speech`. They cover the content-type gate, the order of the stage
  calls and what each receives, and the status codes 400, 422 and 500 with their
  messages. The `finally` cleanup runs over a `TempDir` object whose set of files the
  handlers change. Every stage is an outcome given in advance (a value, or the
  message of the exception it raises).

The generation prompt (llm_utils.py:60 and its JSON template at 73-89) asks for a string
`quizTitle`, ten questions and boolean `isCorrect` flags. The validator is looser,
and the model follows the validator:

- the type of `quizTitle` is never checked;
- any number of questions is accepted, including none;
- an option counts as correct when `isCorrect` is truthy, not when it equals `true`.

The cleaner `clean_json_response` of test_json_parsing.py is also more defensive than
the production path. `generate_quiz` does not strip a bare "```" fence and does not cut
the reply to its braces. The model keeps the two apart and states where they agree.

## Model

| member | source | states |
|---|---|---|
| PyStr.StripTrims | test_json_parsing.py:11 | `strip()` removes only whitespace, only at the two ends, and leaves a text with no whitespace at either end |
| PyStr.StripUnique | test_json_parsing.py:11 | any piece of the text cut out by whitespace alone and not itself padded is exactly what `strip()` returns |
| PyStr.StripIdempotent | test_json_parsing.py:22-23 | trimming a trimmed text changes nothing |
| PyStr.StripEmptyIff | main.py:82 | `s.strip() == ""` exactly when every character of `s` is whitespace |
| PyStr.ContainsAt | main.py:145 | the substring test `p in s` holds exactly when `p` occurs at some position of `s` |
| PyStr.FindFrom | test_json_parsing.py:26 | `find` gives -1 when the character is absent, and otherwise an index holding it with no earlier occurrence |
| PyStr.RFindBelow | test_json_parsing.py:27 | `rfind` gives -1 when the character is absent, and otherwise an index holding it with no later occurrence |
| JsonCleaner.DropLeadingFence | test_json_parsing.py:14-17 | exactly one of "```json", "```" or nothing is cut from the front: "```json" when the text starts with it, and otherwise "```" when it starts with that |
| JsonCleaner.DropTrailingFence | test_json_parsing.py:19-20 | a closing "```" is cut off exactly when the text ends with one, and nothing else changes |
| JsonCleaner.BraceSliceShape | test_json_parsing.py:26-30 | the brace step keeps a text with no `{`. When a `}` follows the first `{`, it keeps exactly the first `{` through the last `}`. When no `}` follows the first `{`, it gives the empty text, because the end index is never -1 |
| JsonCleaner.CleanJsonResponse | test_json_parsing.py:8-32 | the step-by-step cleaner computes the composition of the steps, and its result is a contiguous piece of the input with no whitespace at either end |
| JsonCleaner.CleanJsonIsSlice | test_json_parsing.py:8-32 | the cleaned text is a contiguous piece of the reply and never longer |
| JsonCleaner.CleanJsonNoOuterSpace | test_json_parsing.py:22-30 | the cleaned text never starts or ends with whitespace |
| PyStr.StripScans | test_json_parsing.py:11 | what `strip()` cuts away is whitespace, and what it keeps neither starts nor ends with whitespace |
| JsonCleaner.StripIgnoresPadding | test_json_parsing.py:11 | putting whitespace around a text never changes what `strip()` returns |
| JsonCleaner.CleanJsonIgnoresPadding | test_json_parsing.py:8-11 | putting whitespace around a reply never changes what it cleans to |
| JsonCleaner.StripPadded | test_json_parsing.py:11 | trimming a text padded only by whitespace gives back the unpadded text |
| JsonCleaner.BraceSliceWrapped | test_json_parsing.py:26-30 | an object-shaped text with no `{` before it and no `}` after it is exactly what the brace step cuts out |
| JsonCleaner.BraceSliceWhole | test_json_parsing.py:26-30 | an object-shaped text is kept whole by the brace step |
| JsonCleaner.OpensWithJsonFence | test_json_parsing.py:14-17 | a fenced text whose body does not start with "json" opens with "```json" exactly when its own fence is "```json" |
| JsonCleaner.FencesDropped | test_json_parsing.py:14-20 | a fenced text whose body does not start with "json" (the empty body included) keeps its fences through the first trim and loses exactly both of them |
| JsonCleaner.FencedObjectCleans | test_json_parsing.py:8-32 | an object inside either kind of fence, with any whitespace between the fences and the object, cleans to the object |
| JsonCleaner.PaddedFencedObjectCleans | test_json_parsing.py:8-32 | the same with any whitespace also outside the fences: a fenced object cleans to the object however the reply is padded |
| JsonCleaner.ProseWrappedObjectCleans | test_json_parsing.py:8-32 | an object inside prose cleans to the object, when the prose before holds no `{`, the prose after holds no `}`, and the reply neither starts nor ends with whitespace or a fence |
| JsonCleaner.PaddedProseWrappedObjectCleans | test_json_parsing.py:8-32 | the same for a reply with any whitespace around it: only the text inside that whitespace must not start or end with a fence |
| JsonCleaner.JsonFencedSample | test_json_parsing.py:36 | the "```json"-fenced sample cleans to `{"test": "value"}` |
| JsonCleaner.ProseWrappedSample | test_json_parsing.py:37 | the prose-wrapped sample cleans to `{"test": "value"}` |
| JsonCleaner.PlainSample | test_json_parsing.py:38 | the bare object sample is left as it is |
| JsonCleaner.BareFencedSample | test_json_parsing.py:39 | the "```"-fenced sample cleans to `{"test": "value"}` |
| LlmUtils.RefineTranscript | llm_utils.py:32-43 | a reply gives its trimmed text, and a failure gives one failure prefixed "Failed to refine transcript: " |
| LlmUtils.DropJsonFence | llm_utils.py:106-107 | only a leading "```json" is cut off, and only when the text starts with it |
| LlmUtils.GenerateQuiz | llm_utils.py:94-117 | the decoder sees the reply trimmed and stripped of a leading "```json" and a trailing "```". A decode error is reported as "Failed to parse quiz JSON: " and every other failure as "Failed to generate quiz: ". A decoded value is returned unexamined |
| LlmUtils.BareFenceKept | llm_utils.py:103-109 | after a bare leading "```" the decoder is handed a prefix of the trimmed reply, shorter by at most three characters. When the trimmed reply has at least six characters, that prefix still opens with the fence |
| LlmUtils.CleanerExtendsPayload | llm_utils.py:103-111 | unless the reply opens with a bare "```", the cleaner's result is what `generate_quiz` decodes, trimmed once more and cut to its braces |
| LlmUtils.BareFencedPayload | llm_utils.py:103-111 | a reply fenced as "```" ... "```" whose body does not start with "json" reaches the decoder with its opening fence; only the closing one is cut |
| LlmUtils.BareFencedSampleDiverges | llm_utils.py:103-111 | on the "```"-fenced sample the cleaner yields the object, but `generate_quiz` decodes text that still starts with "```" |
| LlmUtils.JsonFencedSamplePayload | llm_utils.py:103-111 | on the "```json"-fenced sample `generate_quiz` decodes the object with one newline on each side |
| QuizSchema.ValidateQuizStructure | test_api.py:83-153 | the loops accept a quiz exactly when it is an object with `quizTitle` and a list `questions`, and every question is an object with `questionNumber`, `question` and a list of exactly four options. Each option must be an object with `text` and `isCorrect`, and exactly one option must be marked correct |
| QuizSchema.CountOneHasOnlyMarked | test_api.py:132-147 | a count of one correct option means there is a single marked option and every other option is unmarked |
| QuizSchema.OnlyMarkedCountsOne | test_api.py:132-147 | a single marked option with every other option unmarked gives a count of one |
| QuizSchema.CorrectCountOne | test_api.py:132-147 | the count is one exactly when one option is marked and no other one is |
| QuizSchema.CorrectCountZero | test_api.py:132-147 | the count is zero exactly when no option is marked |
| QuizSchema.QuizTitleUnchecked | test_api.py:99-101 | replacing the value of `quizTitle` never changes the verdict |
| QuizSchema.ValidQuestionHasOneAnswer | test_api.py:117-147 | an accepted question has four options, exactly one of them marked correct |
| QuizSchema.EmptyQuestionsAccepted | test_api.py:107-112 | a quiz with an empty question list passes |
| QuizSchema.StringFlagCountsAsCorrect | test_api.py:142-143 | an option whose `isCorrect` is the string "false" counts as correct |
| Endpoints.TempDir.Create | main.py:71-72 | creating the named temporary file adds exactly its path |
| Endpoints.TempDir.RemoveIfRecorded | main.py:102-113 | the cleanup removes a recorded, non-empty, existing path unless unlinking it fails, never raises, and touches nothing else |
| Endpoints.NoSpeechIffBlank | main.py:82-86 | the 422 guard fires exactly when the transcript is missing or all whitespace |
| Endpoints.QuizRun | main.py:46-114 | 400 exactly for a missing or non-video content type, before any file or call. A failure to create the temporary file, or to copy the upload into it, gives 500 "Internal server error: " and the message, with no stage called. Otherwise the stages run in the order extract, transcribe, refine, generate, each fed the previous result, and each stage that succeeds is followed by the next. The first failing stage is the last one called and its message is reported under 500 "Internal server error: ". A blank transcript gives 422 and skips refine and generate. Success returns the generated value exactly when all four stages succeed |
| Endpoints.GenerateQuizEndpoint | main.py:46-114 | the handler answers and calls as `QuizRun` says. The temporary names are fresh, as `NamedTemporaryFile` guarantees. Afterwards the folder holds the old files plus the recorded temporary files, minus those the cleanup could unlink. So every file that was there before is still there, and no created file survives unless unlinking it failed |
| Endpoints.AudioSuffix | main.py:145 | the temporary audio file ends in ".mp3" exactly when "mp3" occurs in the content type, and in ".wav" otherwise |
| Endpoints.EvaluateRun | main.py:117-173 | 400 exactly for a missing or non-audio content type. A failure to create the temporary file, or to copy the upload, gives 500 "Internal server error during speech evaluation: " and the message, with no evaluation call. Otherwise there is exactly one evaluation call, passed the exercise and the one temporary file. Success returns the evaluation, and its failure is reported under the same 500 prefix |
| Endpoints.EvaluateSpeechEndpoint | main.py:117-173 | the handler answers and calls as `EvaluateRun` says. With a fresh temporary name, every file that was there before is still there afterwards, and the created file is gone unless unlinking it failed |

## Left out

- Audio extraction (video_utils.py), speech recognition (stt.py) and the language-model
  calls with their prompts are foreign libraries and network services. They are stage
  outcomes given in advance: a value or an exception message. The exception text they
  build, such as "Failed to extract audio from video: …", is part of that message.
- `json.loads` is a function passed in, returning a value, a decode error or another
  error. RFC 8259 parsing, NaN/Infinity and duplicate keys are not modelled.
- JsonValue.Truthy: a number is kept as the exact decimal it is written as. `json.loads`
  turns a non-integer into a float, so `1e-400` decodes to `0.0`, which Python treats as
  false, while `Number(1, -400)` is truthy here. Float rounding is not modelled.
- LlmUtils.GenerateQuiz: the decoded value is not checked against the quiz schema,
  because the source does not check it either.
- LlmUtils.GenerateQuiz: a failure before `json.loads` (the engine call or reading its
  reply) is always reported as "Failed to generate quiz: ". The source picks the
  prefix by exception type (llm_utils.py:114-117), so a `JSONDecodeError` raised inside
  the engine call would get "Failed to parse quiz JSON: ". The model does not carry
  the exception type of that call.
- `evaluate_speech` is imported by main.py:11 but not defined in llm_utils.py, so in
  the source the import itself fails. The model treats evaluation as an abstract
  stage outcome.
- Endpoints.QuizRun: extraction is assumed to leave no file behind when it fails. Its
  own cleanup at video_utils.py:43-49 is not part of this model.
- The temporary file names chosen by `tempfile`, file contents and the upload bytes are
  not modelled. Only which paths exist is modelled.
- FastAPI routing and serialisation, CORS, the startup hook, `async`, and the
  `/health`, `/test` and `/` endpoints are not modelled. The `uvicorn` entry point is
  left out too.
- The environment variable written at llm_utils.py:7 is not modelled.
- The console `print` calls of the validator and the test scripts, and the driver
  loops at test_json_parsing.py:42-52 and test_api.py:156-161, are not modelled.
  The sample replies they feed are covered by the sample lemmas.
- QuizSchema.ValidateQuizStructure: the `try`/`except` that turns an exception into
  `False` is not modelled, because no decoded JSON value can make the checks raise.
