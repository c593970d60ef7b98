/**
 * The FastAPI back end (backend/main.py): the CORS origin list read from the
 * environment, and the request handlers of `/medical-consultation`,
 * `/analyze-image`, `/transcribe-audio` and `/text-to-speech`, down to which
 * prompt is built, which hosted service is called, and how errors become
 * status codes. The hosted services themselves (speech to text, image and
 * text analysis, speech synthesis) are the fields of a `Services` value.
 */
module Backend {
  import opened Wrappers
  import opened Media
  import opened PyStr

  // ---------------------------------------------------------------------
  // ALLOWED_ORIGINS (main.py:17-20)
  // ---------------------------------------------------------------------

  const LOCAL_ORIGIN: string := "http://localhost:3000"
  const DEPLOYED_ORIGIN: string := "https://aimedicaldoc.netlify.app"

  /** The value `os.getenv` falls back to when `ALLOWED_ORIGINS` is unset. */
  const DEFAULT_ALLOWED_ORIGINS: string := LOCAL_ORIGIN + "," + DEPLOYED_ORIGIN

  /** `[o.strip() for o in pieces if o.strip()]`: the stripped, non-empty pieces, in order. */
  function CleanOrigins(pieces: seq<string>): (r: seq<string>)
    ensures |r| <= |pieces|
    ensures forall k :: 0 <= k < |r| ==> r[k] != "" && Strip(r[k]) == r[k]
  {
    if pieces == [] then []
    else
      var o := Strip(pieces[0]);
      StripIdempotent(pieces[0]);
      (if o != "" then [o] else []) + CleanOrigins(pieces[1..])
  }

  /** Cleaning works piece by piece, so the order of the pieces is kept. */
  lemma {:induction false} CleanOriginsAppend(a: seq<string>, b: seq<string>)
    ensures CleanOrigins(a + b) == CleanOrigins(a) + CleanOrigins(b)
  {
    if a != [] {
      assert (a + b)[1..] == a[1..] + b;
      CleanOriginsAppend(a[1..], b);
    } else {
      assert a + b == b;
    }
  }

  /** An origin is kept exactly when some piece strips to it and it is not empty. */
  lemma {:induction false} CleanOriginsMember(pieces: seq<string>, origin: string)
    ensures origin in CleanOrigins(pieces) <==> origin != "" && exists p :: p in pieces && Strip(p) == origin
  {
    if pieces != [] {
      CleanOriginsMember(pieces[1..], origin);
      if origin != "" && Strip(pieces[0]) != origin && (exists p :: p in pieces && Strip(p) == origin) {
        var p :| p in pieces && Strip(p) == origin;
        assert p in pieces[1..];
      }
    }
  }

  /** Already clean origins pass through unchanged. */
  lemma {:induction false} CleanOriginsOfClean(origins: seq<string>)
    requires forall k :: 0 <= k < |origins| ==> origins[k] != "" && Strip(origins[k]) == origins[k]
    ensures CleanOrigins(origins) == origins
  {
    if origins != [] {
      CleanOriginsOfClean(origins[1..]);
    }
  }

  /**
   * The origins a raw `ALLOWED_ORIGINS` value lists: split on commas, each
   * piece stripped, empty pieces dropped.
   */
  function OriginsIn(raw: string): (r: seq<string>)
    ensures forall k :: 0 <= k < |r| ==> r[k] != "" && ',' !in r[k] && Strip(r[k]) == r[k]
  {
    var pieces := Split(raw, ',');
    var r := CleanOrigins(pieces);
    forall k | 0 <= k < |r| ensures ',' !in r[k] {
      CleanOriginsMember(pieces, r[k]);
      var p :| p in pieces && Strip(p) == r[k];
      StripKeepsOut(p, ',');
    }
    r
  }

  /** An origin is allowed exactly when it is non-empty and some comma-separated piece strips to it. */
  lemma OriginsInMember(raw: string, origin: string)
    ensures origin in OriginsIn(raw) <==>
              origin != "" && exists piece :: piece in Split(raw, ',') && Strip(piece) == origin
  {
    CleanOriginsMember(Split(raw, ','), origin);
  }

  /**
   * Order is kept: the first comma-separated piece contributes its origin,
   * if it has one, ahead of all the origins of the rest.
   */
  lemma OriginsInOrder(first: string, rest: string)
    requires ',' !in first
    ensures OriginsIn(first + "," + rest) ==
              (if Strip(first) != "" then [Strip(first)] else []) + OriginsIn(rest)
  {
    SplitAfterHead(first, ',', rest);
    CleanOriginsAppend([first], Split(rest, ','));
    assert ([first] + Split(rest, ','))[1..] == Split(rest, ',');
    assert CleanOrigins([first]) == (if Strip(first) != "" then [Strip(first)] else []) + CleanOrigins([]);
  }

  /**
   * `ALLOWED_ORIGINS`: the origins the setting lists, or those of the
   * default when it is unset. A setting that is present but empty is not
   * replaced by the default.
   */
  function AllowedOrigins(setting: Option<string>): (r: seq<string>)
    ensures setting.Some? ==> r == OriginsIn(setting.value)
  {
    OriginsIn(setting.GetOr(DEFAULT_ALLOWED_ORIGINS))
  }

  /**
   * Writing clean origins comma-separated and reading them back gives the
   * same list, in the same order.
   */
  lemma OriginsRoundTrip(origins: seq<string>)
    requires forall k :: 0 <= k < |origins| ==> origins[k] != "" && ',' !in origins[k] && Strip(origins[k]) == origins[k]
    ensures OriginsIn(Join(origins, ',')) == origins
  {
    if origins == [] {
      assert Split("", ',') == [""];
      assert Strip("") == "";
    } else {
      SplitJoin(origins, ',');
      CleanOriginsOfClean(origins);
    }
  }

  /** The default setting allows exactly the local and the deployed front end. */
  lemma DefaultOrigins()
    ensures AllowedOrigins(None) == [LOCAL_ORIGIN, DEPLOYED_ORIGIN]
  {
    var both := [LOCAL_ORIGIN, DEPLOYED_ORIGIN];
    assert ',' !in LOCAL_ORIGIN && ',' !in DEPLOYED_ORIGIN;
    StripTrimmed(LOCAL_ORIGIN);
    StripTrimmed(DEPLOYED_ORIGIN);
    assert Join(both, ',') == DEFAULT_ALLOWED_ORIGINS;
    OriginsRoundTrip(both);
  }

  /** A setting that is present but blank allows no origin at all. */
  lemma BlankSettingAllowsNothing(setting: string)
    requires forall i :: 0 <= i < |setting| ==> IsSpace(setting[i])
    ensures AllowedOrigins(Some(setting)) == []
  {
    var pieces := Split(setting, ',');
    if OriginsIn(setting) != [] {
      var o := OriginsIn(setting)[0];
      CleanOriginsMember(pieces, o);
      var p :| p in pieces && Strip(p) == o;
      var k :| 0 <= k < |pieces| && pieces[k] == p;
      forall i | 0 <= i < |p| ensures IsSpace(p[i]) {
        SplitKeepsChars(setting, ',', k, p[i]);
      }
      StripEmpty(p);
    }
  }

  // ---------------------------------------------------------------------
  // Prompts and models (main.py:37-65, 112-115, 167-171, 182-186)
  // ---------------------------------------------------------------------

  /** `system_prompt` (main.py:37-51), sent with every image analysis. */
  const SYSTEM_PROMPT: string :=
    "\n" +
    "First of all just tell me whether you can hear me or not.. \n" +
    "You have to act as a professional doctor, i know you are not but this is for learning purpose. \n" +
    "What's in this image?. Do you find anything wrong with it medically? \n" +
    "If you make a differential, suggest some remedies for them. Donot add any numbers or special characters in \n" +
    "your response. Your response should be in one long paragraph. Also always answer as if you are answering to a real person.\n" +
    "Donot say 'In the image I see' but say 'With what I see, I think you have ....'\n" +
    "Dont respond as an AI model in markdown, your answer should mimic that of an actual doctor not an AI bot, \n" +
    "Keep your answer concise (max 2 sentences). No preamble, start your answer right away please\n" +
    "After providing a diagnosis, match the condition with the most relevant ICD-10 medical code, and display it clearly.\n" +
    "If unsure, mention possible conditions with their ICD-10 codes and advise follow-up with a certified doctor.\n" +
    "Your responses should be helpful, concise, and clinically accurate.\n" +
    "\n" +
    "Here is a medical image and a patient question. Image: [image]. Patient says: [transcribed audio]. Please answer using both.\n"

  /** The placeholder `voice_only_prompt` holds for the transcribed symptoms. */
  const SYMPTOMS_PLACEHOLDER: string := "[transcribed_symptoms]"

  /** The text of `voice_only_prompt` before its placeholder. */
  const VOICE_PROMPT_HEAD: string :=
    "\n" +
    "You have to act as a professional doctor, i know you are not but this is for learning purpose. \n" +
    "Based on the patient's symptoms they are describing, provide a medical assessment. \n" +
    "If you make a differential diagnosis, suggest some remedies for them. Donot add any numbers or special characters in \n" +
    "your response. Your response should be in one long paragraph. Also always answer as if you are answering to a real person.\n" +
    "Dont respond as an AI model in markdown, your answer should mimic that of an actual doctor not an AI bot, \n" +
    "Keep your answer concise (max 2 sentences). No preamble, start your answer right away please\n" +
    "After providing a diagnosis, match the condition with the most relevant ICD-10 medical code, and display it clearly.\n" +
    "If unsure, mention possible conditions with their ICD-10 codes and advise follow-up with a certified doctor.\n" +
    "Your responses should be helpful, concise, and clinically accurate.\n" +
    "\n" +
    "Patient says: "

  /** The text of `voice_only_prompt` after its placeholder. */
  const VOICE_PROMPT_TAIL: string := ". Please provide your medical assessment.\n"

  /** `voice_only_prompt` (main.py:53-65). */
  const VOICE_ONLY_PROMPT: string := VOICE_PROMPT_HEAD + SYMPTOMS_PLACEHOLDER + VOICE_PROMPT_TAIL

  const SPEECH_MODEL: string := "whisper-large-v3"
  const VISION_MODEL: string := "meta-llama/llama-4-scout-17b-16e-instruct"

  /**
   * `system_prompt + transcription if transcription else system_prompt`: the
   * system prompt followed by whatever was transcribed. The conditional adds
   * nothing, since appending "" changes nothing.
   */
  function ImagePrompt(transcription: string): string {
    if transcription != "" then SYSTEM_PROMPT + transcription else SYSTEM_PROMPT
  }

  /** `voice_only_prompt.replace("[transcribed_symptoms]", transcription)`. */
  function VoicePrompt(transcription: string): string {
    ReplaceAll(VOICE_ONLY_PROMPT, SYMPTOMS_PLACEHOLDER, transcription)
  }

  /** Either way the prompt is the system prompt with the transcription appended. */
  lemma ImagePromptAppends(transcription: string)
    ensures ImagePrompt(transcription) == SYSTEM_PROMPT + transcription
  {
    if transcription == "" {
      assert SYSTEM_PROMPT + transcription == SYSTEM_PROMPT;
    }
  }

  // ---------------------------------------------------------------------
  // Hosted services, replies, errors
  // ---------------------------------------------------------------------

  /**
   * The calls into code this model does not see, each with the value it
   * returns or the message `str(e)` of what it raises. Writing and reading
   * the temporary files belongs to the call that needs them.
   */
  datatype Services = Services(
    /** `transcribe_with_groq(..., audio_filepath, stt_model)` on the uploaded audio. */
    transcribe: (string, Bytes) -> Result<string, string>,
    /** `analyze_image_with_query(prompt, model, encode_image(path))` on the uploaded image. */
    analyzeImage: (string, string, Bytes) -> Result<string, string>,
    /** `analyze_text_only(prompt)`. */
    analyzeText: string -> Result<string, string>,
    /** `text_to_speech_elevenLabs(input_text, output_filepath)`. */
    synthesize: (string, string) -> Result<(), string>)

  /** One call a handler made into `Services`, with its arguments. */
  datatype ServiceCall =
    | Transcribe(model: string, audio: Bytes)
    | AnalyzeImage(prompt: string, model: string, image: Bytes)
    | AnalyzeText(prompt: string)
    | Synthesize(text: string, path: string)

  /** What a handler answers: a JSON body, or an `HTTPException`'s status and detail. */
  datatype Reply<T> = Ok(body: T) | Error(status: nat, detail: string)

  /** `str(HTTPException(status, detail))`, as Starlette formats it. */
  function ExceptionText(status: nat, detail: string): string {
    Decimal(status) + ": " + detail
  }

  /** How a 400 reads once caught and quoted: its status code, a colon, its detail. */
  lemma BadRequestText(detail: string)
    ensures ExceptionText(400, detail) == "400: " + detail
  {
    calc {
      Decimal(400);
      Decimal(40) + [Digit(0)];
      Decimal(4) + [Digit(0)] + [Digit(0)];
      "400";
    }
  }

  /** Whether `detail` starts with `prefix`. */
  predicate StartsWith(detail: string, prefix: string) {
    |prefix| <= |detail| && detail[..|prefix|] == prefix
  }

  // ---------------------------------------------------------------------
  // POST /medical-consultation (main.py:150-215)
  // ---------------------------------------------------------------------

  const NO_INPUT_DETAIL: string := "Please provide either an image or audio recording for consultation"
  const CONSULTATION_FAILED: string := "Consultation failed: "

  /** The JSON the consultation returns: always these three keys. */
  datatype ConsultationResponse = ConsultationResponse(transcription: string, analysis: string, audioUrl: Option<string>)

  const RESPONSE_PREFIX: string := "temp_response_"

  /**
   * A per-process temporary MP3 file, `f"<prefix>{os.getpid()}.mp3"`: the
   * prefix, then the pid's decimal digits, then the `.mp3` extension.
   */
  function TempMp3Path(prefix: string, pid: nat): (path: string)
    ensures StartsWith(path, prefix)
  {
    prefix + Decimal(pid) + ".mp3"
  }

  /** The name ends in `.mp3`, and between the prefix and the extension stand the pid's digits. */
  lemma TempMp3PathParts(prefix: string, pid: nat)
    ensures var path := TempMp3Path(prefix, pid);
            && |path| > |prefix| + 4 && path[|path| - 4..] == ".mp3"
            && path[|prefix|..|path| - 4] == Decimal(pid)
  {
  }

  /** Different processes write different files: the name determines the pid. */
  lemma TempMp3PathInjective(prefix: string, p: nat, q: nat)
    ensures TempMp3Path(prefix, p) == TempMp3Path(prefix, q) <==> p == q
  {
    if TempMp3Path(prefix, p) == TempMp3Path(prefix, q) {
      TempMp3PathParts(prefix, p);
      TempMp3PathParts(prefix, q);
      DecimalRoundTrip(p);
      DecimalRoundTrip(q);
    }
  }

  /** The spoken analysis of `/medical-consultation` never overwrites the file `/text-to-speech` writes. */
  lemma ResponseAndSpeechFilesDiffer(p: nat, q: nat)
    ensures TempMp3Path(RESPONSE_PREFIX, p) != TempMp3Path(SPEECH_PREFIX, q)
  {
    assert TempMp3Path(RESPONSE_PREFIX, p)[5] == 'r';
    assert TempMp3Path(SPEECH_PREFIX, q)[5] == 'a';
  }

  /** The transcription step: "" without audio, else what the speech model returns or raises. */
  function Heard(svc: Services, audio: Option<Bytes>): Result<string, string> {
    if audio.Some? then svc.transcribe(SPEECH_MODEL, audio.value) else Success("")
  }

  /**
   * The analysis step for a transcription: the image route whenever there is
   * an image, else the text route when something was transcribed, else "".
   */
  function Analysed(svc: Services, image: Option<Bytes>, transcription: string): Result<string, string> {
    if image.Some? then svc.analyzeImage(ImagePrompt(transcription), VISION_MODEL, image.value)
    else if transcription != "" then svc.analyzeText(VoicePrompt(transcription))
    else Success("")
  }

  /** The download URL of the spoken analysis. */
  function ResponseAudioUrl(pid: nat): (url: string)
    ensures StartsWith(url, "/download-audio/temp_response_")
  {
    "/download-audio/" + TempMp3Path(RESPONSE_PREFIX, pid)
  }

  /**
   * What `medical_consultation` answers: transcribe the audio if any,
   * analyse the image if any or else a non-empty transcription, refuse when
   * there is neither analysis nor transcription, and speak a non-empty
   * analysis. Everything raised inside, the refusal included, becomes a 500.
   */
  function ConsultationReply(svc: Services, pid: nat, image: Option<Bytes>, audio: Option<Bytes>): Reply<ConsultationResponse> {
    match Heard(svc, audio)
    case Failure(e) => Error(500, CONSULTATION_FAILED + e)
    case Success(transcription) =>
      match Analysed(svc, image, transcription)
      case Failure(e) => Error(500, CONSULTATION_FAILED + e)
      case Success(analysis) =>
        if analysis == "" && transcription == "" then
          Error(500, CONSULTATION_FAILED + ExceptionText(400, NO_INPUT_DETAIL))
        else if analysis == "" then
          Ok(ConsultationResponse(transcription, analysis, None))
        else
          match svc.synthesize(analysis, TempMp3Path(RESPONSE_PREFIX, pid))
          case Failure(e) => Error(500, CONSULTATION_FAILED + e)
          case Success(_) => Ok(ConsultationResponse(transcription, analysis, Some(ResponseAudioUrl(pid))))
  }

  /** The service calls `medical_consultation` makes, in order, up to the first that raises. */
  function ConsultationCalls(svc: Services, pid: nat, image: Option<Bytes>, audio: Option<Bytes>): seq<ServiceCall> {
    var transcribing := if audio.Some? then [Transcribe(SPEECH_MODEL, audio.value)] else [];
    match Heard(svc, audio)
    case Failure(_) => transcribing
    case Success(transcription) =>
      var analysing :=
        if image.Some? then [AnalyzeImage(ImagePrompt(transcription), VISION_MODEL, image.value)]
        else if transcription != "" then [AnalyzeText(VoicePrompt(transcription))]
        else [];
      match Analysed(svc, image, transcription)
      case Failure(_) => transcribing + analysing
      case Success(analysis) =>
        transcribing + analysing + (if analysis != "" then [Synthesize(analysis, TempMp3Path(RESPONSE_PREFIX, pid))] else [])
  }

  /**
   * `medical_consultation`, step by step: the locals `transcription`,
   * `analysis` and `audio_path` are reassigned across the branches, and the
   * first service that raises ends the handler with a 500.
   */
  method MedicalConsultation(svc: Services, pid: nat, image: Option<Bytes>, audio: Option<Bytes>)
    returns (reply: Reply<ConsultationResponse>, calls: seq<ServiceCall>)
    ensures reply == ConsultationReply(svc, pid, image, audio)
    ensures calls == ConsultationCalls(svc, pid, image, audio)
  {
    calls := [];
    var transcription := "";
    var analysis := "";

    if audio.Some? {
      calls := calls + [Transcribe(SPEECH_MODEL, audio.value)];
      var heard := svc.transcribe(SPEECH_MODEL, audio.value);
      if heard.Failure? {
        reply := Error(500, CONSULTATION_FAILED + heard.error);
        return;
      }
      transcription := heard.value;
    }

    if image.Some? {
      var fullPrompt := ImagePrompt(transcription);
      calls := calls + [AnalyzeImage(fullPrompt, VISION_MODEL, image.value)];
      var seen := svc.analyzeImage(fullPrompt, VISION_MODEL, image.value);
      if seen.Failure? {
        reply := Error(500, CONSULTATION_FAILED + seen.error);
        return;
      }
      analysis := seen.value;
    } else if transcription != "" {
      var fullPrompt := VoicePrompt(transcription);
      calls := calls + [AnalyzeText(fullPrompt)];
      var assessed := svc.analyzeText(fullPrompt);
      if assessed.Failure? {
        reply := Error(500, CONSULTATION_FAILED + assessed.error);
        return;
      }
      analysis := assessed.value;
    }

    if analysis == "" && transcription == "" {
      reply := Error(500, CONSULTATION_FAILED + ExceptionText(400, NO_INPUT_DETAIL));
      return;
    }

    var audioPath: Option<string> := None;
    if analysis != "" {
      var path := TempMp3Path(RESPONSE_PREFIX, pid);
      calls := calls + [Synthesize(analysis, path)];
      var spoken := svc.synthesize(analysis, path);
      if spoken.Failure? {
        reply := Error(500, CONSULTATION_FAILED + spoken.error);
        return;
      }
      audioPath := Some(path);
    }

    var audioUrl := if audioPath.Some? then Some("/download-audio/" + audioPath.value) else None;
    reply := Ok(ConsultationResponse(transcription, analysis, audioUrl));
  }

  /** Without audio nothing is transcribed, and a success reports the transcription as "". */
  lemma NoAudioNoTranscription(svc: Services, pid: nat, image: Option<Bytes>)
    ensures forall c :: c in ConsultationCalls(svc, pid, image, None) ==> !c.Transcribe?
    ensures ConsultationReply(svc, pid, image, None).Ok? ==> ConsultationReply(svc, pid, image, None).body.transcription == ""
  {
  }

  /**
   * An image is always analysed once the transcription step succeeded, even
   * when something was transcribed, and the prompt is the system prompt
   * with the transcription appended; the text route is then never taken.
   */
  lemma ImageRouteAlwaysTaken(svc: Services, pid: nat, image: Bytes, audio: Option<Bytes>)
    requires Heard(svc, audio).Success?
    ensures AnalyzeImage(SYSTEM_PROMPT + Heard(svc, audio).value, VISION_MODEL, image) in ConsultationCalls(svc, pid, Some(image), audio)
    ensures forall c :: c in ConsultationCalls(svc, pid, Some(image), audio) ==> !c.AnalyzeText?
  {
    ImagePromptAppends(Heard(svc, audio).value);
  }

  /** The text route runs exactly when there is no image and the transcription is non-empty, on the voice prompt. */
  lemma TextRouteExactly(svc: Services, pid: nat, image: Option<Bytes>, audio: Option<Bytes>, prompt: string)
    ensures AnalyzeText(prompt) in ConsultationCalls(svc, pid, image, audio) <==>
              image.None? && Heard(svc, audio).Success? && Heard(svc, audio).value != "" &&
              prompt == VoicePrompt(Heard(svc, audio).value)
  {
  }

  /**
   * When both the analysis and the transcription come back empty, the 400
   * raised inside the handler is caught and re-raised as a 500 that quotes it.
   */
  lemma EmptyOutcomeIsRefused(svc: Services, pid: nat, image: Option<Bytes>, audio: Option<Bytes>)
    requires Heard(svc, audio) == Success("") && Analysed(svc, image, "") == Success("")
    ensures ConsultationReply(svc, pid, image, audio) == Error(500, "Consultation failed: 400: " + NO_INPUT_DETAIL)
    ensures forall c :: c in ConsultationCalls(svc, pid, image, audio) ==> !c.Synthesize?
  {
    assert ConsultationReply(svc, pid, image, audio) == Error(500, CONSULTATION_FAILED + ExceptionText(400, NO_INPUT_DETAIL));
    BadRequestText(NO_INPUT_DETAIL);
  }

  /** With nothing uploaded no service is called and the reply is the re-raised 400. */
  lemma NothingUploadedIsRefused(svc: Services, pid: nat)
    ensures ConsultationCalls(svc, pid, None, None) == []
    ensures ConsultationReply(svc, pid, None, None) == Error(500, "Consultation failed: 400: " + NO_INPUT_DETAIL)
  {
    EmptyOutcomeIsRefused(svc, pid, None, None);
  }

  /**
   * A successful consultation has an analysis or a transcription, and it
   * carries the download URL of the per-process response file exactly when
   * the analysis is non-empty.
   */
  lemma AudioUrlExactlyForAnalysis(svc: Services, pid: nat, image: Option<Bytes>, audio: Option<Bytes>)
    ensures var reply := ConsultationReply(svc, pid, image, audio);
            reply.Ok? ==>
              && (reply.body.analysis != "" || reply.body.transcription != "")
              && (reply.body.audioUrl.Some? <==> reply.body.analysis != "")
              && (reply.body.audioUrl.Some? ==> reply.body.audioUrl.value == ResponseAudioUrl(pid))
  {
    match Heard(svc, audio)
    case Failure(_) =>
    case Success(transcription) =>
      match Analysed(svc, image, transcription)
      case Failure(_) =>
      case Success(analysis) =>
  }

  /** A successful consultation spoke its analysis into the response file exactly when the analysis is non-empty. */
  lemma SpokenExactlyForAnalysis(svc: Services, pid: nat, image: Option<Bytes>, audio: Option<Bytes>)
    ensures var reply := ConsultationReply(svc, pid, image, audio);
            reply.Ok? ==>
              (Synthesize(reply.body.analysis, TempMp3Path(RESPONSE_PREFIX, pid)) in ConsultationCalls(svc, pid, image, audio)
               <==> reply.body.analysis != "")
  {
    match Heard(svc, audio)
    case Failure(_) =>
    case Success(transcription) =>
      match Analysed(svc, image, transcription)
      case Failure(_) =>
      case Success(analysis) =>
        var calls := ConsultationCalls(svc, pid, image, audio);
        if analysis != "" {
          assert calls[|calls| - 1] == Synthesize(analysis, TempMp3Path(RESPONSE_PREFIX, pid));
        }
  }

  /** Every failure of the consultation is a 500 whose detail starts with "Consultation failed: ". */
  lemma ConsultationErrorsAre500(svc: Services, pid: nat, image: Option<Bytes>, audio: Option<Bytes>)
    ensures var reply := ConsultationReply(svc, pid, image, audio);
            reply.Error? ==> reply.status == 500 && StartsWith(reply.detail, CONSULTATION_FAILED)
  {
  }

  // ---------------------------------------------------------------------
  // POST /analyze-image (main.py:97-125)
  // ---------------------------------------------------------------------

  const ANALYSIS_FAILED: string := "Analysis failed: "

  datatype AnalysisResponse = AnalysisResponse(analysis: string)

  /**
   * `analyze_image`: one call to the vision model, with the same prompt rule
   * as the consultation's image route; `transcription` is a query parameter
   * that defaults to "".
   */
  method AnalyzeImageHandler(svc: Services, image: Bytes, transcription: string)
    returns (reply: Reply<AnalysisResponse>, calls: seq<ServiceCall>)
    ensures calls == [AnalyzeImage(ImagePrompt(transcription), VISION_MODEL, image)]
    ensures var seen := svc.analyzeImage(ImagePrompt(transcription), VISION_MODEL, image);
            && (reply.Ok? <==> seen.Success?)
            && (reply.Ok? ==> reply.body.analysis == seen.value)
            && (reply.Error? ==> reply == Error(500, ANALYSIS_FAILED + seen.error))
    ensures Analysed(svc, Some(image), transcription).Success? <==> reply.Ok?
  {
    var fullPrompt := ImagePrompt(transcription);
    calls := [AnalyzeImage(fullPrompt, VISION_MODEL, image)];
    var seen := svc.analyzeImage(fullPrompt, VISION_MODEL, image);
    if seen.Failure? {
      reply := Error(500, ANALYSIS_FAILED + seen.error);
    } else {
      reply := Ok(AnalysisResponse(seen.value));
    }
  }

  // ---------------------------------------------------------------------
  // POST /transcribe-audio (main.py:71-95)
  // ---------------------------------------------------------------------

  const TRANSCRIPTION_FAILED: string := "Transcription failed: "

  datatype TranscriptionResponse = TranscriptionResponse(transcription: string)

  /** `transcribe_audio`: one call to the speech model; what it raises becomes a 500. */
  method TranscribeAudioHandler(svc: Services, audio: Bytes)
    returns (reply: Reply<TranscriptionResponse>, calls: seq<ServiceCall>)
    ensures calls == [Transcribe(SPEECH_MODEL, audio)]
    ensures reply.Ok? <==> Heard(svc, Some(audio)).Success?
    ensures reply.Ok? ==> reply.body.transcription == Heard(svc, Some(audio)).value
    ensures reply.Error? ==> reply == Error(500, TRANSCRIPTION_FAILED + Heard(svc, Some(audio)).error)
  {
    calls := [Transcribe(SPEECH_MODEL, audio)];
    var heard := svc.transcribe(SPEECH_MODEL, audio);
    if heard.Failure? {
      reply := Error(500, TRANSCRIPTION_FAILED + heard.error);
    } else {
      reply := Ok(TranscriptionResponse(heard.value));
    }
  }

  // ---------------------------------------------------------------------
  // POST /text-to-speech (main.py:127-148)
  // ---------------------------------------------------------------------

  const TTS_FAILED: string := "TTS failed: "
  const TEXT_REQUIRED_DETAIL: string := "Text is required"

  /** The `FileResponse` sent back: the file, its media type and its download name. */
  datatype AudioFileResponse = AudioFileResponse(path: string, mediaType: string, filename: string)

  const SPEECH_PREFIX: string := "temp_audio_"

  /**
   * `convert_text_to_speech`: a missing or empty `text` raises 400, which the
   * catch-all turns into a 500; otherwise the text is spoken into
   * `temp_audio_<pid>.mp3` and that file is sent back.
   */
  method TextToSpeechHandler(svc: Services, pid: nat, text: Option<string>)
    returns (reply: Reply<AudioFileResponse>, calls: seq<ServiceCall>)
    ensures text.GetOr("") == "" ==>
              calls == [] && reply == Error(500, "TTS failed: 400: " + TEXT_REQUIRED_DETAIL)
    ensures text.GetOr("") != "" ==>
              && calls == [Synthesize(text.value, TempMp3Path(SPEECH_PREFIX, pid))]
              && (reply.Ok? <==> svc.synthesize(text.value, TempMp3Path(SPEECH_PREFIX, pid)).Success?)
              && (reply.Error? ==> reply == Error(500, TTS_FAILED + svc.synthesize(text.value, TempMp3Path(SPEECH_PREFIX, pid)).error))
    ensures reply.Ok? ==> reply.body == AudioFileResponse(TempMp3Path(SPEECH_PREFIX, pid), "audio/mpeg", "doctor_response.mp3")
    ensures reply.Error? ==> reply.status == 500 && StartsWith(reply.detail, TTS_FAILED)
  {
    calls := [];
    var spokenText := text.GetOr("");
    if spokenText == "" {
      BadRequestText(TEXT_REQUIRED_DETAIL);
      reply := Error(500, TTS_FAILED + ExceptionText(400, TEXT_REQUIRED_DETAIL));
      return;
    }
    var outputPath := TempMp3Path(SPEECH_PREFIX, pid);
    calls := [Synthesize(spokenText, outputPath)];
    var spoken := svc.synthesize(spokenText, outputPath);
    if spoken.Failure? {
      reply := Error(500, TTS_FAILED + spoken.error);
    } else {
      reply := Ok(AudioFileResponse(outputPath, "audio/mpeg", "doctor_response.mp3"));
    }
  }
}
