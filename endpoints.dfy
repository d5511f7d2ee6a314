/** The two POST handlers of main.py, `/generate-quiz` and `/evaluate-speech`: which
    status they answer with, which pipeline stages they call and with what, and which
    temporary files they leave behind. Every stage (the temporary-file creation, the
    upload copy, extraction, transcription, refinement, quiz generation, evaluation)
    is an outcome fixed in advance; a stage the handler does not reach is never
    consulted. */
module Endpoints {
  import opened Wrappers
  import opened PyStr
  import opened JsonValue

  type Path = string

  /** What the client receives: the JSON body, or an `HTTPException`. */
  datatype Response = Ok(body: Json) | HttpError(status: int, detail: string)

  /** A call the handler makes to a pipeline stage, with the argument it passes. */
  datatype Call =
    | Extract(video: Path)
    | Transcribe(audio: Path)
    | Refine(transcript: string)
    | Generate(refined: string)
    | Evaluate(exercise: string, audio: Path)

  const InvalidVideoDetail: string := "Invalid file type. Please upload a video file."
  const NoSpeechDetail: string :=
    "No speech detected in the video. Please ensure the video contains clear audio."
  const InternalPrefix: string := "Internal server error: "
  const InvalidAudioDetail: string := "Invalid file type. Please upload an audio file (MP3/WAV)."
  const EvaluationInternalPrefix: string := "Internal server error during speech evaluation: "

  /** The folder of temporary files: the paths that exist on disk. */
  class TempDir {
    var files: set<Path>

    constructor (existing: set<Path>)
      ensures files == existing
    {
      files := existing;
    }

    /** A named temporary file is created at `path`. */
    method Create(path: Path)
      modifies this
      ensures files == old(files) + {path}
    {
      files := files + {path};
    }

    /** `if path and os.path.exists(path): try: os.unlink(path) except: pass` where the
        unlink fails for the paths in `unlinkFails`: the file goes when it is
        recorded, non-empty and removable, and nothing is raised either way. */
    method RemoveIfRecorded(path: Option<Path>, unlinkFails: set<Path>)
      modifies this
      ensures files == old(files) - Removable(path, unlinkFails)
    {
      if path.Some? && path.value != "" && path.value in files {
        if path.value !in unlinkFails {
          files := files - {path.value};
        }
      }
    }
  }

  /** The paths a recorded temporary path lets the cleanup remove. */
  function Removable(path: Option<Path>, unlinkFails: set<Path>): (gone: set<Path>)
    ensures gone <= (if path.Some? then {path.value} else {})
  {
    if path.Some? && path.value != "" && path.value !in unlinkFails then {path.value} else {}
  }

  /** `content_type` is set and starts with `prefix` (Python's `not ct or not
      ct.startswith(prefix)` negated). */
  predicate HasType(contentType: Option<string>, prefix: string)
  {
    contentType.Some? && StartsWith(contentType.value, prefix)
  }

  /** `not raw_transcript or raw_transcript.strip() == ""` */
  predicate NoSpeech(transcript: Option<string>)
  {
    transcript.None? || transcript.value == [] || Strip(transcript.value) == []
  }

  lemma NoSpeechIffBlank(transcript: Option<string>)
    ensures NoSpeech(transcript) <==> transcript.None? || AllSpace(transcript.value)
  {
    if transcript.Some? {
      StripEmptyIff(transcript.value);
    }
  }

  /** How the stages of `/generate-quiz` turn out on one request. `tempName` is the
      name `NamedTemporaryFile` picks (before its ".mp4" suffix) or the exception it
      raised; `upload` is the exception raised while copying the upload into it, if
      any; a transcript may be `None`. */
  datatype QuizStages = QuizStages(
    tempName: Outcome<string>,
    upload: Option<string>,
    extract: Outcome<Path>,
    transcribe: Outcome<Option<string>>,
    refine: Outcome<string>,
    generate: Outcome<Json>)

  /** What one request did: the response, the stage calls in the order made, and the
      temporary paths recorded for cleanup (each one a file the request created). */
  datatype Run = Run(response: Response, calls: seq<Call>, temps: seq<Path>)

  function Internal(message: string): (response: Response)
    ensures response.HttpError? && response.status == 500
  {
    HttpError(500, InternalPrefix + message)
  }

  /** The calls are a prefix of extract, transcribe, refine, generate. */
  predicate InPipelineOrder(calls: seq<Call>)
  {
    && |calls| <= 4
    && (|calls| > 0 ==> calls[0].Extract?)
    && (|calls| > 1 ==> calls[1].Transcribe?)
    && (|calls| > 2 ==> calls[2].Refine?)
    && (|calls| > 3 ==> calls[3].Generate?)
  }

  /** The decisions `generate_quiz_endpoint` takes. */
  function QuizRun(contentType: Option<string>, st: QuizStages): (run: Run)
    // the content-type gate answers 400 and nothing else does; it runs before
    // anything is written or called
    ensures run.response == HttpError(400, InvalidVideoDetail) <==> !HasType(contentType, "video/")
    ensures !HasType(contentType, "video/") ==> run.calls == [] && run.temps == []
    // the stages run in their fixed order, each fed by the one before
    ensures InPipelineOrder(run.calls)
    ensures |run.calls| > 0 ==>
      (st.tempName.Success? && st.upload.None? && |run.temps| > 0
       && run.temps[0] == st.tempName.value + ".mp4" && run.calls[0] == Extract(run.temps[0]))
    ensures |run.calls| > 1 ==>
      (st.extract.Success? && run.calls[1] == Transcribe(st.extract.value)
       && run.temps == [run.temps[0], st.extract.value])
    ensures |run.calls| > 2 ==>
      (st.transcribe.Success? && !NoSpeech(st.transcribe.value)
       && run.calls[2] == Refine(st.transcribe.value.value))
    ensures |run.calls| > 3 ==> st.refine.Success? && run.calls[3] == Generate(st.refine.value)
    // the temporary file is created, or its upload copied, before any stage runs; a
    // failure there is reported under 500 with nothing called
    ensures HasType(contentType, "video/") && st.tempName.Failure? ==>
      run == Run(Internal(st.tempName.message), [], [])
    ensures HasType(contentType, "video/") && st.tempName.Success? && st.upload.Some? ==>
      run == Run(Internal(st.upload.value), [], [st.tempName.value + ".mp4"])
    // each stage that succeeds is followed by the next one
    ensures HasType(contentType, "video/") && st.tempName.Success? && st.upload.None? ==>
      |run.calls| > 0
    ensures |run.calls| > 0 && st.extract.Success? ==> |run.calls| > 1
    ensures |run.calls| > 1 && st.transcribe.Success? && !NoSpeech(st.transcribe.value) ==>
      |run.calls| > 2
    ensures |run.calls| > 2 && st.refine.Success? ==> |run.calls| > 3
    // the first failing stage is the last one called, and its message is reported
    // under 500
    ensures |run.calls| > 0 && st.extract.Failure? ==>
      |run.calls| == 1 && run.temps == [run.temps[0]] && run.response == Internal(st.extract.message)
    ensures |run.calls| > 1 && st.transcribe.Failure? ==>
      |run.calls| == 2 && run.response == Internal(st.transcribe.message)
    ensures |run.calls| > 2 && st.refine.Failure? ==>
      |run.calls| == 3 && run.response == Internal(st.refine.message)
    ensures |run.calls| > 3 && st.generate.Failure? ==> run.response == Internal(st.generate.message)
    // no speech: 422, and neither refine nor generate is called
    ensures run.response.HttpError? && run.response.status == 422 <==>
      |run.calls| == 2 && st.transcribe.Success? && NoSpeech(st.transcribe.value)
    ensures run.response.HttpError? && run.response.status == 422 ==> run.response.detail == NoSpeechDetail
    // success is the value generation returned, after all four stages
    ensures run.response.Ok? <==> |run.calls| == 4 && st.generate.Success?
    ensures run.response.Ok? ==> run.response.body == st.generate.value
    ensures run.response.HttpError? ==> run.response.status in {400, 422, 500}
  {
    if !HasType(contentType, "video/") then
      Run(HttpError(400, InvalidVideoDetail), [], [])
    else if st.tempName.Failure? then
      Run(Internal(st.tempName.message), [], [])
    else
      var video := st.tempName.value + ".mp4";
      if st.upload.Some? then
        Run(Internal(st.upload.value), [], [video])
      else if st.extract.Failure? then
        Run(Internal(st.extract.message), [Extract(video)], [video])
      else
        var audio := st.extract.value;
        var temps := [video, audio];
        var calls := [Extract(video), Transcribe(audio)];
        if st.transcribe.Failure? then
          Run(Internal(st.transcribe.message), calls, temps)
        else if NoSpeech(st.transcribe.value) then
          Run(HttpError(422, NoSpeechDetail), calls, temps)
        else
          var raw := st.transcribe.value.value;
          if st.refine.Failure? then
            Run(Internal(st.refine.message), calls + [Refine(raw)], temps)
          else if st.generate.Failure? then
            Run(Internal(st.generate.message), calls + [Refine(raw), Generate(st.refine.value)], temps)
          else
            Run(Ok(st.generate.value), calls + [Refine(raw), Generate(st.refine.value)], temps)
  }

  /** The recorded paths, as the handler's path variables hold them at the end: the
      file it created first, and the one it created second. */
  function FirstTemp(run: Run): (path: Option<Path>)
    ensures path.Some? <==> |run.temps| > 0
  {
    if |run.temps| > 0 then Some(run.temps[0]) else None
  }

  function SecondTemp(run: Run): (path: Option<Path>)
    ensures path.Some? <==> |run.temps| > 1
  {
    if |run.temps| > 1 then Some(run.temps[1]) else None
  }

  /** `generate_quiz_endpoint`: the handler proper, with its two path variables, its
      stage calls and its `finally` cleanup over the folder of temporary files. */
  method GenerateQuizEndpoint(dir: TempDir, contentType: Option<string>, st: QuizStages,
                              unlinkFails: set<Path>)
    returns (response: Response, calls: seq<Call>)
    // `NamedTemporaryFile` (here and inside the extraction) picks a name not yet in use
    requires st.tempName.Success? ==> st.tempName.value + ".mp4" !in dir.files
    requires st.extract.Success? ==> st.extract.value != "" && st.extract.value !in dir.files
    requires st.tempName.Success? && st.extract.Success? ==>
      st.extract.value != st.tempName.value + ".mp4"
    modifies dir
    ensures response == QuizRun(contentType, st).response
    ensures calls == QuizRun(contentType, st).calls
    ensures var run := QuizRun(contentType, st);
      dir.files == (old(dir.files) + (set p | p in run.temps))
        - Removable(FirstTemp(run), unlinkFails) - Removable(SecondTemp(run), unlinkFails)
    // no file that was there before is touched, and every file the request created is
    // gone unless unlinking it failed
    ensures old(dir.files) <= dir.files
    ensures forall p :: p in dir.files && p !in old(dir.files) ==> p in unlinkFails
  {
    var tempVideoPath: Option<Path> := None;
    var tempAudioPath: Option<Path> := None;
    calls := [];
    if !HasType(contentType, "video/") {
      response := HttpError(400, InvalidVideoDetail);
    } else if st.tempName.Failure? {
      response := Internal(st.tempName.message);
    } else {
      var video := st.tempName.value + ".mp4";
      dir.Create(video);
      tempVideoPath := Some(video);
      if st.upload.Some? {
        response := Internal(st.upload.value);
      } else {
        calls := calls + [Extract(video)];
        if st.extract.Failure? {
          response := Internal(st.extract.message);
        } else {
          var audio := st.extract.value;
          dir.Create(audio);
          tempAudioPath := Some(audio);
          calls := calls + [Transcribe(audio)];
          if st.transcribe.Failure? {
            response := Internal(st.transcribe.message);
          } else if NoSpeech(st.transcribe.value) {
            response := HttpError(422, NoSpeechDetail);
          } else {
            var rawTranscript := st.transcribe.value.value;
            calls := calls + [Refine(rawTranscript)];
            if st.refine.Failure? {
              response := Internal(st.refine.message);
            } else {
              calls := calls + [Generate(st.refine.value)];
              if st.generate.Failure? {
                response := Internal(st.generate.message);
              } else {
                response := Ok(st.generate.value);
              }
            }
          }
        }
      }
    }
    ghost var run := QuizRun(contentType, st);
    assert tempVideoPath == FirstTemp(run) && tempAudioPath == SecondTemp(run);
    assert dir.files == old(dir.files) + (set p | p in run.temps);
    dir.RemoveIfRecorded(tempVideoPath, unlinkFails);
    dir.RemoveIfRecorded(tempAudioPath, unlinkFails);
  }

  /** The suffix of the temporary audio file: ".mp3" exactly when "mp3" occurs in the
      content type, ".wav" otherwise. */
  function AudioSuffix(contentType: string): (suffix: string)
    ensures suffix == ".mp3" <==>
      (exists i, j :: 0 <= i <= j <= |contentType| && j == i + 3 && contentType[i..j] == "mp3")
    ensures suffix != ".mp3" ==> suffix == ".wav"
  {
    ContainsAt(contentType, "mp3");
    if Contains(contentType, "mp3") then ".mp3" else ".wav"
  }

  /** How the stages of `/evaluate-speech` turn out on one request. */
  datatype EvaluateStages = EvaluateStages(
    tempName: Outcome<string>,
    upload: Option<string>,
    evaluate: Outcome<Json>)

  function EvaluationInternal(message: string): (response: Response)
    ensures response.HttpError? && response.status == 500
  {
    HttpError(500, EvaluationInternalPrefix + message)
  }

  /** The decisions `evaluate_speech_endpoint` takes. */
  function EvaluateRun(contentType: Option<string>, exercise: string, st: EvaluateStages): (run: Run)
    ensures run.response == HttpError(400, InvalidAudioDetail) <==> !HasType(contentType, "audio/")
    ensures !HasType(contentType, "audio/") ==> run.calls == [] && run.temps == []
    ensures |run.temps| <= 1 && |run.calls| <= 1
    ensures |run.temps| == 1 ==>
      (contentType.Some? && st.tempName.Success?
       && run.temps[0] == st.tempName.value + AudioSuffix(contentType.value))
    ensures |run.calls| == 1 ==>
      (st.upload.None? && |run.temps| == 1 && run.calls[0] == Evaluate(exercise, run.temps[0]))
    ensures run.response.Ok? <==> |run.calls| == 1 && st.evaluate.Success?
    ensures run.response.Ok? ==> run.response.body == st.evaluate.value
    ensures HasType(contentType, "audio/") && st.tempName.Failure? ==>
      run == Run(EvaluationInternal(st.tempName.message), [], [])
    ensures HasType(contentType, "audio/") && st.tempName.Success? ==> |run.temps| == 1
    ensures HasType(contentType, "audio/") && st.tempName.Success? && st.upload.Some? ==>
      run.calls == [] && run.response == EvaluationInternal(st.upload.value)
    ensures HasType(contentType, "audio/") && st.tempName.Success? && st.upload.None? ==>
      |run.calls| == 1
    ensures |run.calls| == 1 && st.evaluate.Failure? ==>
      run.response == EvaluationInternal(st.evaluate.message)
    ensures run.response.HttpError? ==> run.response.status in {400, 500}
  {
    if !HasType(contentType, "audio/") then
      Run(HttpError(400, InvalidAudioDetail), [], [])
    else if st.tempName.Failure? then
      Run(EvaluationInternal(st.tempName.message), [], [])
    else
      var audio := st.tempName.value + AudioSuffix(contentType.value);
      if st.upload.Some? then
        Run(EvaluationInternal(st.upload.value), [], [audio])
      else if st.evaluate.Failure? then
        Run(EvaluationInternal(st.evaluate.message), [Evaluate(exercise, audio)], [audio])
      else
        Run(Ok(st.evaluate.value), [Evaluate(exercise, audio)], [audio])
  }

  /** `evaluate_speech_endpoint`: the handler with its one path variable and its
      `finally` cleanup. */
  method EvaluateSpeechEndpoint(dir: TempDir, contentType: Option<string>, exercise: string,
                                st: EvaluateStages, unlinkFails: set<Path>)
    returns (response: Response, calls: seq<Call>)
    // `NamedTemporaryFile` picks a name not yet in use
    requires HasType(contentType, "audio/") && st.tempName.Success? ==>
      st.tempName.value + AudioSuffix(contentType.value) !in dir.files
    modifies dir
    ensures response == EvaluateRun(contentType, exercise, st).response
    ensures calls == EvaluateRun(contentType, exercise, st).calls
    ensures var run := EvaluateRun(contentType, exercise, st);
      dir.files == (old(dir.files) + (set p | p in run.temps)) - Removable(FirstTemp(run), unlinkFails)
    ensures old(dir.files) <= dir.files
    ensures forall p :: p in dir.files && p !in old(dir.files) ==> p in unlinkFails
  {
    var tempAudioPath: Option<Path> := None;
    calls := [];
    if !HasType(contentType, "audio/") {
      response := HttpError(400, InvalidAudioDetail);
    } else if st.tempName.Failure? {
      response := EvaluationInternal(st.tempName.message);
    } else {
      var fileExtension := AudioSuffix(contentType.value);
      var audio := st.tempName.value + fileExtension;
      dir.Create(audio);
      tempAudioPath := Some(audio);
      if st.upload.Some? {
        response := EvaluationInternal(st.upload.value);
      } else {
        calls := calls + [Evaluate(exercise, audio)];
        if st.evaluate.Failure? {
          response := EvaluationInternal(st.evaluate.message);
        } else {
          response := Ok(st.evaluate.value);
        }
      }
    }
    ghost var run := EvaluateRun(contentType, exercise, st);
    assert tempAudioPath == FirstTemp(run);
    assert dir.files == old(dir.files) + (set p | p in run.temps);
    dir.RemoveIfRecorded(tempAudioPath, unlinkFails);
  }
}
