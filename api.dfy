/**
 * The front end's API client (frontend/src/services/api.ts): one shared
 * client configuration and the request builders of `consultationService`.
 * Each builder assembles a multipart form part by part and posts it; the
 * transport (axios and the network) is a function parameter that maps the
 * request sent to the response body or the error raised, and whatever it
 * gives back is handed on unchanged.
 */
module Api {
  import opened Wrappers
  import opened Media

  // ---------------------------------------------------------------------
  // The shared client (api.ts:3-13)
  // ---------------------------------------------------------------------

  const DEFAULT_BASE_URL: string := "http://localhost:8000"
  const JSON_CONTENT_TYPE: string := "application/json"
  const MULTIPART_CONTENT_TYPE: string := "multipart/form-data"
  const TIMEOUT_MS: nat := 60000

  /**
   * `process.env.REACT_APP_API_BASE_URL || 'http://localhost:8000'`: the
   * setting when it is set and non-empty (the empty string is falsy), else
   * the local back end.
   */
  function BaseUrl(setting: Option<string>): (url: string)
    ensures url != ""
    ensures setting.Some? && setting.value != "" ==> url == setting.value
    ensures setting.None? || setting.value == "" ==> url == DEFAULT_BASE_URL
  {
    if setting.Some? && setting.value != "" then setting.value else DEFAULT_BASE_URL
  }

  /** The options `axios.create` is given: base URL, default content type and timeout. */
  datatype ClientConfig = ClientConfig(baseUrl: string, contentType: string, timeoutMs: nat)

  function Client(setting: Option<string>): ClientConfig {
    ClientConfig(BaseUrl(setting), JSON_CONTENT_TYPE, TIMEOUT_MS)
  }

  // ---------------------------------------------------------------------
  // Requests
  // ---------------------------------------------------------------------

  /** One `formData.append(name, value)`: a file or a plain text field. */
  datatype Part = FilePart(name: string, file: File) | TextPart(name: string, value: string)

  /** What is posted: a multipart form, or the JSON object `{ text }`. */
  datatype Body = Form(parts: seq<Part>) | TextJson(text: string) | NoBody

  datatype Verb = Get | Post

  /**
   * A request as the shared client sends it: per-request headers override
   * the client's default content type; `blobResponse` is `responseType: 'blob'`.
   */
  datatype Request = Request(
    client: ClientConfig,
    verb: Verb,
    path: string,
    contentType: string,
    body: Body,
    blobResponse: bool)

  /** `api.post(path, body, { headers: { 'Content-Type': 'multipart/form-data' } })`. */
  function MultipartPost(client: ClientConfig, path: string, parts: seq<Part>): Request {
    Request(client, Post, path, MULTIPART_CONTENT_TYPE, Form(parts), false)
  }

  /** What a request can fail with; it reaches the caller exactly as raised. */
  datatype ApiError =
    | HttpError(status: nat, data: string)
    | NoResponse(message: string)

  /** The body of a consultation reply; `audio_url` is optional. */
  datatype ConsultationResult = ConsultationResult(transcription: string, analysis: string, audioUrl: Option<string>)
  datatype TranscriptionResult = TranscriptionResult(transcription: string)
  datatype AnalysisResult = AnalysisResult(analysis: string)
  datatype HealthResult = HealthResult(message: string)

  function Names(parts: seq<Part>): (names: seq<string>)
    ensures |names| == |parts|
    ensures forall k :: 0 <= k < |parts| ==> names[k] == parts[k].name
  {
    if parts == [] then [] else [parts[0].name] + Names(parts[1..])
  }

  // ---------------------------------------------------------------------
  // medicalConsultation (api.ts:23-63)
  // ---------------------------------------------------------------------

  const CONSULTATION_PATH: string := "/medical-consultation"
  const RECORDING_NAME: string := "recording.wav"
  const RECORDING_TYPE: string := "audio/wav"

  /** The recorded audio as the file it is posted as: `new File([audio], 'recording.wav', { type: 'audio/wav' })`. */
  function RecordingFile(audio: Blob): File {
    FileFromBlob(audio, RECORDING_NAME, RECORDING_TYPE)
  }

  /** The form `medicalConsultation` posts, appended in source order. */
  function ConsultationForm(image: Option<File>, audio: Option<Blob>): seq<Part> {
    (if image.Some? then [FilePart("image", image.value)] else [])
    + (if audio.Some? then [FilePart("audio", RecordingFile(audio.value))] else [])
  }

  /**
   * `medicalConsultation`: append the image if there is one, then the audio
   * wrapped as a WAV file if there is one, post the form, and return the
   * body or rethrow the error. Nothing checks that a part was added.
   */
  method MedicalConsultation(
    client: ClientConfig,
    transport: Request -> Result<ConsultationResult, ApiError>,
    image: Option<File>,
    audio: Option<Blob>)
    returns (sent: Request, outcome: Result<ConsultationResult, ApiError>)
    ensures sent == MultipartPost(client, CONSULTATION_PATH, ConsultationForm(image, audio))
    ensures outcome == transport(sent)
  {
    var formData: seq<Part> := [];
    if image.Some? {
      formData := formData + [FilePart("image", image.value)];
    }
    assert formData == ConsultationForm(image, None);
    if audio.Some? {
      var audioFile := RecordingFile(audio.value);
      formData := formData + [FilePart("audio", audioFile)];
    }
    assert formData == ConsultationForm(image, audio);
    sent := MultipartPost(client, CONSULTATION_PATH, formData);
    outcome := transport(sent);
  }

  /** There is an `image` part exactly when an image is given, and it is the first part, carrying the file as is. */
  lemma ImagePartExactlyWhenImage(image: Option<File>, audio: Option<Blob>)
    ensures "image" in Names(ConsultationForm(image, audio)) <==> image.Some?
    ensures image.Some? ==> ConsultationForm(image, audio)[0] == FilePart("image", image.value)
  {
  }

  /**
   * There is an `audio` part exactly when audio is given; it is the last
   * part, a file named recording.wav of type audio/wav holding the
   * recording's bytes.
   */
  lemma AudioPartExactlyWhenAudio(image: Option<File>, audio: Option<Blob>)
    ensures "audio" in Names(ConsultationForm(image, audio)) <==> audio.Some?
    ensures audio.Some? ==>
              var form := ConsultationForm(image, audio);
              var part := form[|form| - 1];
              && part.FilePart? && part.name == "audio"
              && part.file == File("recording.wav", audio.value.content, "audio/wav")
  {
  }

  /** Image before audio, and nothing else: the names are exactly the artifacts given, in that order. */
  lemma ConsultationPartOrder(image: Option<File>, audio: Option<Blob>)
    ensures Names(ConsultationForm(image, audio)) ==
              (if image.Some? then ["image"] else []) + (if audio.Some? then ["audio"] else [])
    ensures |ConsultationForm(image, audio)| <= 2
  {
  }

  /**
   * With neither artifact the form is empty; `MedicalConsultation` has no
   * precondition, so the request it sends is this empty multipart post.
   */
  lemma EmptyFormStillPosted(client: ClientConfig)
    ensures ConsultationForm(None, None) == []
    ensures MultipartPost(client, CONSULTATION_PATH, ConsultationForm(None, None)) ==
              Request(client, Post, "/medical-consultation", "multipart/form-data", Form([]), false)
  {
  }

  // ---------------------------------------------------------------------
  // transcribeAudio (api.ts:66-77)
  // ---------------------------------------------------------------------

  const TRANSCRIBE_PATH: string := "/transcribe-audio"

  /** `transcribeAudio`: exactly one part, named `audio`, holding the file as given. */
  method TranscribeAudio(
    client: ClientConfig,
    transport: Request -> Result<TranscriptionResult, ApiError>,
    audio: File)
    returns (sent: Request, outcome: Result<TranscriptionResult, ApiError>)
    ensures sent == MultipartPost(client, TRANSCRIBE_PATH, [FilePart("audio", audio)])
    ensures Names(sent.body.parts) == ["audio"]
    ensures outcome == transport(sent)
  {
    var formData: seq<Part> := [];
    formData := formData + [FilePart("audio", audio)];
    assert formData == [FilePart("audio", audio)];
    sent := MultipartPost(client, TRANSCRIBE_PATH, formData);
    outcome := transport(sent);
  }

  // ---------------------------------------------------------------------
  // analyzeImage (api.ts:80-98)
  // ---------------------------------------------------------------------

  const ANALYZE_PATH: string := "/analyze-image"

  /** The form `analyzeImage` posts: the image, then the transcription when it is truthy. */
  function AnalysisForm(image: File, transcription: Option<string>): seq<Part> {
    [FilePart("image", image)]
    + (if transcription.Some? && transcription.value != "" then [TextPart("transcription", transcription.value)] else [])
  }

  /** `analyzeImage`: the image part always, a `transcription` part only for a non-empty transcription. */
  method AnalyzeImage(
    client: ClientConfig,
    transport: Request -> Result<AnalysisResult, ApiError>,
    image: File,
    transcription: Option<string>)
    returns (sent: Request, outcome: Result<AnalysisResult, ApiError>)
    ensures sent == MultipartPost(client, ANALYZE_PATH, AnalysisForm(image, transcription))
    ensures outcome == transport(sent)
  {
    var formData: seq<Part> := [];
    formData := formData + [FilePart("image", image)];
    if transcription.Some? && transcription.value != "" {
      formData := formData + [TextPart("transcription", transcription.value)];
    }
    assert formData == AnalysisForm(image, transcription);
    sent := MultipartPost(client, ANALYZE_PATH, formData);
    outcome := transport(sent);
  }

  /**
   * The image always goes first; a second part, the transcription as text,
   * is there exactly when the transcription is non-empty.
   */
  lemma AnalysisFormParts(image: File, transcription: Option<string>)
    ensures AnalysisForm(image, transcription)[0] == FilePart("image", image)
    ensures "transcription" in Names(AnalysisForm(image, transcription)) <==>
              transcription.Some? && transcription.value != ""
    ensures transcription.Some? && transcription.value != "" ==>
              AnalysisForm(image, transcription) == [FilePart("image", image), TextPart("transcription", transcription.value)]
    ensures transcription.None? || transcription.value == "" ==> AnalysisForm(image, transcription) == [FilePart("image", image)]
  {
  }

  // ---------------------------------------------------------------------
  // textToSpeech and healthCheck (api.ts:101-114)
  // ---------------------------------------------------------------------

  /** `textToSpeech`: the JSON object `{ text }` with the client's JSON content type, answered as a blob. */
  method TextToSpeech(client: ClientConfig, transport: Request -> Result<Blob, ApiError>, text: string)
    returns (sent: Request, outcome: Result<Blob, ApiError>)
    ensures sent == Request(client, Post, "/text-to-speech", client.contentType, TextJson(text), true)
    ensures outcome == transport(sent)
  {
    sent := Request(client, Post, "/text-to-speech", client.contentType, TextJson(text), true);
    outcome := transport(sent);
  }

  /** `healthCheck`: a GET of the root path. */
  method HealthCheck(client: ClientConfig, transport: Request -> Result<HealthResult, ApiError>)
    returns (sent: Request, outcome: Result<HealthResult, ApiError>)
    ensures sent == Request(client, Get, "/", client.contentType, NoBody, false)
    ensures outcome == transport(sent)
  {
    sent := Request(client, Get, "/", client.contentType, NoBody, false);
    outcome := transport(sent);
  }

  /**
   * Every multipart request of the client overrides the JSON default with
   * the multipart content type, and keeps the shared base URL and timeout.
   */
  lemma MultipartOverridesJson(setting: Option<string>, path: string, parts: seq<Part>)
    ensures var sent := MultipartPost(Client(setting), path, parts);
            && sent.contentType == MULTIPART_CONTENT_TYPE != Client(setting).contentType
            && sent.client.baseUrl == BaseUrl(setting)
            && sent.client.timeoutMs == 60000
  {
  }
}
