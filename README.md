# AI Medical Doctor: consultation flow, verified model

This project models the consultation flow of the AI Medical Doctor web application in Dafny, and proves its properties.

In the application, a patient records a spoken description of their symptoms, uploads a medical image, or both. The front end then posts the artifacts to a FastAPI back end. The back end transcribes the audio and analyses the image or the transcription with hosted models. It then speaks the analysis back as an MP3 file.

The model has three parts, each in its source's own form:

- **The consultation page** (`consultation_page.dfy`, module `ConsultationPage`).
  - A pure `Step(state, event)` says what each handler and each asynchronous completion does to the component's state. The completions are microphone access, the recorder's `onstop`, the FileReader's `onload`, the settled request, and the audio element's events.
  - `Enabled(state, event)` follows the rendered page: which buttons are shown, and which are disabled.
  - The class `ConsultationPage` keeps the same state in fields, with one method per handler, and each method is proved to perform `Step`.
  - The class `Recording` is one microphone session: its chunks, its recorder, and the stream's tracks. Its `onstop` stops the tracks in a loop.
  - Lemmas over `Step` state the submit guard, the loading and error lifecycle, and what reset clears and keeps.
  - Lemmas over runs of events show that every request carries an artifact. They also show that a page driven through its own buttons never has two consultations in flight.
- **The API client** (`api.dfy`, module `Api`).
  - Each request builder is a method that appends multipart parts one by one. Each is proved to send the form a pure function describes, and to return exactly what the transport gives back.
  - Lemmas state the presence, order and wrapping rules of the parts.
- **The back end** (`backend.dfy`, module `Backend`, with `pystr.dfy` for the Python string operations it uses).
  - The `ALLOWED_ORIGINS` list: split on commas, strip, drop empties. Its round trip and default value are proved.
  - The handlers of `/medical-consultation`, `/analyze-image`, `/transcribe-audio` and `/text-to-speech`.
  - The hosted services (Groq speech to text, Groq image and text analysis, ElevenLabs speech) are the function-typed fields of a `Services` value. Each returns its result or the message `str(e)` of what it raised.
  - `MedicalConsultation` is written step by step, as the handler is, and is proved equal to `ConsultationReply` and `ConsultationCalls`. Those two state which services are called, in which order, and what reply comes back. The routing and error properties are lemmas about them.

Shared values: `wrappers.dfy` (Option, Result) and `media.dfy` (bytes, `Blob`, `File`).

Two behaviours of the code worth knowing:

- **Reset.** "New Consultation" does not return the page to its initial state. `resetConsultation` clears only the recording, the image, the preview, the result, the error and the file input. It keeps `isRecording`, `isLoading`, `isPlayingAudio` and the recorder ref. `ResetClearsAndKeeps`, `ResetReachesInitialOnlyWhenQuiet` and `ResetConsultation`'s contract state what the code does.
- **A second "Start Recording".** `isRecording` turns true only once the microphone is granted, so until then the button still offers "Start Recording". A second click asks for a second stream. Its grant replaces the recorder in the ref and leaves the first recorder running, with its tracks live. `stopRecording` reaches only the recorder in the ref. `SecondStartIsOffered` and `OnMicrophoneSettled`'s contract state this.
- **Failed transcription.** `transcribe_with_groq` (backend/voice_of_patient.py) returns a "Transcription failed: ..." string on some errors rather than raising. Here the speech service is opaque: whatever string it returns is a transcription, and only what it raises is a failure.

## Model

| member | source | states |
|---|---|---|
| Media.Concat | frontend/src/components/ConsultationPage.tsx:51 | a blob made of one part holds exactly that part's bytes |
| Media.ConcatAppend | frontend/src/components/ConsultationPage.tsx:45-51 | each chunk pushed by `ondataavailable` is appended, in order, to the bytes of the blob `onstop` builds |
| Media.MakeBlob | frontend/src/components/ConsultationPage.tsx:51 | the blob carries the given media type; no chunks give an empty blob |
| Media.FileFromBlob | frontend/src/services/api.ts:39 | wrapping a blob as a file keeps its bytes and sets the given name and type |
| PyStr.Strip | backend/main.py:20 | `strip()` is the slice left after the whitespace at both ends is removed: only whitespace is removed, and the rest neither starts nor ends with whitespace |
| PyStr.StripEmpty | backend/main.py:20 | a piece strips to "" exactly when it is all whitespace |
| PyStr.StripTrimmed | backend/main.py:20 | a string with no whitespace at either end strips to itself |
| PyStr.StripKeepsOut | backend/main.py:20 | stripping adds no character, so a piece without a comma strips to a string without one |
| PyStr.StripIdempotent | backend/main.py:20 | stripping twice is stripping once |
| PyStr.Split | backend/main.py:17 | `split(',')` gives at least one piece, and no piece holds the separator |
| PyStr.SplitKeepsChars | backend/main.py:17 | every character of every piece comes from the string split |
| PyStr.JoinSplit | backend/main.py:17 | joining the pieces with the separator gives back the string: splitting loses nothing |
| PyStr.SplitWithoutSep | backend/main.py:17 | a string without the separator splits into itself alone |
| PyStr.SplitAfterHead | backend/main.py:17 | a separator-free head followed by the separator is the first piece, ahead of the pieces of the rest |
| PyStr.SplitJoin | backend/main.py:17 | splitting a join of separator-free pieces gives back the pieces |
| PyStr.ReplaceAllSkips | backend/main.py:192 | `replace` leaves alone a prefix that cannot start the pattern |
| PyStr.ReplaceSingle | backend/main.py:192 | a template holding the placeholder once has exactly that occurrence replaced |
| PyStr.Decimal | backend/main.py:202 | the f-string rendering of a pid is non-empty, all digits, and has no leading zero |
| PyStr.DecimalRoundTrip | backend/main.py:202 | reading the rendered digits back gives the number |
| Backend.CleanOrigins | backend/main.py:20 | the list comprehension keeps no more pieces than it is given, each non-empty and already stripped |
| Backend.CleanOriginsAppend | backend/main.py:20 | cleaning goes piece by piece, so the order of the pieces is kept |
| Backend.CleanOriginsMember | backend/main.py:20 | an origin is kept exactly when it is non-empty and some piece strips to it |
| Backend.CleanOriginsOfClean | backend/main.py:20 | origins that are already clean pass through unchanged |
| Backend.OriginsIn | backend/main.py:17-20 | every allowed origin is non-empty, has no comma, and is stripped |
| Backend.OriginsInMember | backend/main.py:17-20 | an origin is allowed exactly when it is non-empty and some comma-separated piece of the setting strips to it |
| Backend.OriginsInOrder | backend/main.py:17-20 | the first piece's origin, if it has one, comes ahead of all the origins of the rest: order is kept |
| Backend.AllowedOrigins | backend/main.py:17 | a present setting, even an empty one, is parsed in place of the default |
| Backend.OriginsRoundTrip | backend/main.py:17-20 | clean origins written comma-separated read back as the same list, in order |
| Backend.DefaultOrigins | backend/main.py:17-20 | with the variable unset, exactly the two origins `http://localhost:3000` and `https://aimedicaldoc.netlify.app` are allowed |
| Backend.BlankSettingAllowsNothing | backend/main.py:17-20 | a setting that is all whitespace allows no origin |
| Backend.ImagePromptAppends | backend/main.py:181 | the image prompt is the system prompt with the transcription appended, whether or not the transcription is empty |
| Backend.BadRequestText | backend/main.py:215 | a caught 400 is quoted as "400: " followed by its detail |
| Backend.TempMp3Path | backend/main.py:136 | a temporary speech file's name starts with its prefix (`temp_audio_` for `/text-to-speech`, `temp_response_` for the consultation) |
| Backend.TempMp3PathParts | backend/main.py:202 | the name ends in `.mp3`, with the pid's decimal digits between the prefix and the extension |
| Backend.TempMp3PathInjective | backend/main.py:202 | two processes write the same file exactly when their pids are equal |
| Backend.ResponseAndSpeechFilesDiffer | backend/main.py:136 | the consultation's spoken analysis never overwrites the file `/text-to-speech` writes |
| Backend.ResponseAudioUrl | backend/main.py:208 | the reply's audio URL points at `/download-audio/temp_response_` |
| Backend.MedicalConsultation | backend/main.py:150-215 | the step-by-step handler calls exactly the services of `ConsultationCalls`, in that order, and replies with `ConsultationReply` |
| Backend.NoAudioNoTranscription | backend/main.py:157-172 | without audio no transcription is requested, and a successful reply's transcription is "" |
| Backend.ImageRouteAlwaysTaken | backend/main.py:175-193 | with an image, the vision model is called with the system prompt plus the transcription, even when something was transcribed, and the text route is never taken |
| Backend.TextRouteExactly | backend/main.py:190-193 | text analysis is requested exactly when there is no image and the transcription is non-empty, and its prompt is the voice template with the placeholder replaced |
| Backend.EmptyOutcomeIsRefused | backend/main.py:196-215 | an empty analysis with an empty transcription gives the 500 "Consultation failed: 400: Please provide either an image or audio recording for consultation", and no speech |
| Backend.NothingUploadedIsRefused | backend/main.py:150-215 | with neither upload, no service is called and the reply is that 500 |
| Backend.AudioUrlExactlyForAnalysis | backend/main.py:196-209 | a successful reply has an analysis or a transcription; its `audio_url` is present exactly when the analysis is non-empty, and is then the response file's download URL |
| Backend.SpokenExactlyForAnalysis | backend/main.py:200-203 | after a successful consultation, the analysis was sent for speech into the response file exactly when it is non-empty |
| Backend.ConsultationErrorsAre500 | backend/main.py:213-215 | every failed consultation is a 500 whose detail starts with "Consultation failed: " |
| Backend.AnalyzeImageHandler | backend/main.py:97-125 | one vision call with the same prompt rule as the consultation; its result is the analysis, and what it raises becomes a 500 "Analysis failed: ..." |
| Backend.TranscribeAudioHandler | backend/main.py:71-95 | one speech-to-text call; its result is the transcription, and what it raises becomes a 500 "Transcription failed: ..." |
| Backend.TextToSpeechHandler | backend/main.py:127-148 | missing or empty text calls nothing and gives the 500 "TTS failed: 400: Text is required"; otherwise the text is spoken into the per-process file, which is returned as `doctor_response.mp3` of type audio/mpeg, or the synthesis error becomes a 500 "TTS failed: ..." |
| Api.BaseUrl | frontend/src/services/api.ts:3 | the base URL is never empty: the setting when it is set and non-empty, else `http://localhost:8000` |
| Api.MultipartOverridesJson | frontend/src/services/api.ts:7-13 | multipart requests override the client's JSON content type and keep its base URL and 60-second timeout |
| Api.MedicalConsultation | frontend/src/services/api.ts:23-63 | the parts appended one by one make up `ConsultationForm`, posted to `/medical-consultation`; the outcome is the transport's, body or error, unchanged |
| Api.ImagePartExactlyWhenImage | frontend/src/services/api.ts:32-35 | there is an `image` part exactly when an image is given, and it is the first part, holding the file as given |
| Api.AudioPartExactlyWhenAudio | frontend/src/services/api.ts:37-42 | there is an `audio` part exactly when audio is given; it is the last part, a file named `recording.wav` of type `audio/wav` holding the recording's bytes |
| Api.ConsultationPartOrder | frontend/src/services/api.ts:30-42 | the part names are exactly the artifacts given, image before audio, and there are at most two |
| Api.EmptyFormStillPosted | frontend/src/services/api.ts:30-50 | with neither artifact the form is empty, and the request is still an empty multipart post to `/medical-consultation` |
| Api.TranscribeAudio | frontend/src/services/api.ts:66-77 | the request is a multipart post to `/transcribe-audio` of exactly one part, named `audio`, holding the file as given; the transport's outcome is handed back unchanged |
| Api.AnalyzeImage | frontend/src/services/api.ts:80-98 | the parts appended make up `AnalysisForm`, posted to `/analyze-image`; the outcome is the transport's, unchanged |
| Api.AnalysisFormParts | frontend/src/services/api.ts:84-89 | the image part is always first; a `transcription` text part follows exactly when the transcription is non-empty |
| Api.TextToSpeech | frontend/src/services/api.ts:101-108 | posts `{ text }` with the client's JSON content type and asks for a blob |
| Api.HealthCheck | frontend/src/services/api.ts:111-114 | a GET of `/` |
| ConsultationPage.SubmitWithoutArtifactsOnlyWarns | frontend/src/components/ConsultationPage.tsx:90-94 | with neither recording nor image, submitting only sets the "Please provide either…" error: nothing is sent and loading is unchanged |
| ConsultationPage.SubmitStartsLoading | frontend/src/components/ConsultationPage.tsx:90-98 | a submission past the guard starts loading, clears the error, and sends the selected image and the recording |
| ConsultationPage.EnabledSubmitSends | frontend/src/components/ConsultationPage.tsx:316 | the submit button is disabled exactly when loading or when nothing would be sent, and clicking it when enabled always sends |
| ConsultationPage.SettlingEndsLoading | frontend/src/components/ConsultationPage.tsx:99-107 | loading ends after success and after failure; success stores the response and leaves the error, failure sets "Failed to process consultation…" and leaves the result |
| ConsultationPage.StopOnlyWhileRecording | frontend/src/components/ConsultationPage.tsx:63-68 | stopping changes nothing unless a recorder exists and is recording, and otherwise only ends `isRecording` |
| ConsultationPage.StartClickOnlyAsks | frontend/src/components/ConsultationPage.tsx:39-41 | clicking "Start Recording" only asks for the microphone; nothing shown changes until it settles |
| ConsultationPage.SecondStartIsOffered | frontend/src/components/ConsultationPage.tsx:39-57 | before the first grant arrives a second click is offered, and both grants are delivered, leaving the page recording |
| ConsultationPage.StartNeedsMicrophone | frontend/src/components/ConsultationPage.tsx:39-61 | recording starts only once the microphone is granted; a refusal only sets the microphone error; starting never sets the recording |
| ConsultationPage.OnlyOnStopSetsRecording | frontend/src/components/ConsultationPage.tsx:50-54 | only `onstop` ("Record Again" and reset clear it) changes the recording, and it stores the blob it built |
| ConsultationPage.RemoveImageClearsOnlyImage | frontend/src/components/ConsultationPage.tsx:82-88 | removing the image clears the image, its preview and the file input, and nothing else |
| ConsultationPage.ResetClearsAndKeeps | frontend/src/components/ConsultationPage.tsx:122-131 | reset clears recording, image, preview, result, error and file input, and keeps `isRecording`, `isLoading`, `isPlayingAudio` and the recorder |
| ConsultationPage.ResetReachesInitialOnlyWhenQuiet | frontend/src/components/ConsultationPage.tsx:122-131 | reset gives the initial state exactly when nothing it keeps differs from the start, so after any recording it does not |
| ConsultationPage.SubmissionsCarryArtifact | frontend/src/components/ConsultationPage.tsx:90-98 | in any order of events, every request the page sends carries an image or a recording, so its form is never empty |
| ConsultationPage.StepKeepsConsistent | frontend/src/components/ConsultationPage.tsx:26-131 | an event the page offers keeps at most one request outstanding, loading shown exactly while one is, no result while loading, and recording only with a recorder |
| ConsultationPage.UiTraceKeepsConsistent | frontend/src/components/ConsultationPage.tsx:26-131 | any run of offered events keeps the page consistent |
| ConsultationPage.NoSecondRequestInFlight | frontend/src/components/ConsultationPage.tsx:316 | from the initial page, whenever the submit button is offered no request is outstanding |
| ConsultationPage.Recording.constructor | frontend/src/components/ConsultationPage.tsx:41-45 | a new session has no chunks, is not recording, and has all its tracks live |
| ConsultationPage.Recording.Start | frontend/src/components/ConsultationPage.tsx:56 | the recorder is recording, and its chunks are kept |
| ConsultationPage.Recording.OnDataAvailable | frontend/src/components/ConsultationPage.tsx:46-48 | the data is pushed onto the chunks |
| ConsultationPage.Recording.Stop | frontend/src/components/ConsultationPage.tsx:65 | the recorder stops recording, and its chunks are kept |
| ConsultationPage.Recording.OnStop | frontend/src/components/ConsultationPage.tsx:50-54 | the chunks are joined into one `audio/wav` blob, and every track of the stream is stopped |
| ConsultationPage.ConsultationPage.constructor | frontend/src/components/ConsultationPage.tsx:26-37 | the component starts in the initial state with no recorder |
| ConsultationPage.ConsultationPage.StartRecording | frontend/src/components/ConsultationPage.tsx:39-41 | performs `Step` for the click: the microphone is asked for, and the recorder ref is kept |
| ConsultationPage.ConsultationPage.OnMicrophoneSettled | frontend/src/components/ConsultationPage.tsx:41-60 | performs `Step` for the settled request; once granted, a fresh recorder is started on the stream's tracks, all of them live, and replaces the one in the ref, which is left untouched; on refusal the ref is kept |
| ConsultationPage.ConsultationPage.StopRecording | frontend/src/components/ConsultationPage.tsx:63-68 | performs `Step` for a stop click and keeps the ref; when it acts it stops the recorder and keeps its chunks, and otherwise leaves the recorder untouched |
| ConsultationPage.ConsultationPage.OnRecorderStop | frontend/src/components/ConsultationPage.tsx:50-54 | stores the session's chunks as the recording and stops all its tracks; the recorder ref is kept |
| ConsultationPage.ConsultationPage.HandleImageUpload | frontend/src/components/ConsultationPage.tsx:70-73 | performs `Step`: the first chosen file, if any, becomes the selected image; the recorder ref is kept |
| ConsultationPage.ConsultationPage.OnPreviewLoad | frontend/src/components/ConsultationPage.tsx:75-77 | performs `Step`: the data URL becomes the preview; the recorder ref is kept |
| ConsultationPage.ConsultationPage.RemoveImage | frontend/src/components/ConsultationPage.tsx:82-88 | performs `Step` for the remove button; the recorder ref is kept |
| ConsultationPage.ConsultationPage.RecordAgain | frontend/src/components/ConsultationPage.tsx:250-251 | performs `Step`: the recording is discarded; the recorder ref is kept |
| ConsultationPage.ConsultationPage.HandleSubmit | frontend/src/components/ConsultationPage.tsx:90-98 | performs `Step` for a submit click; it sends exactly `Issued`'s artifacts through the API client and hands back the transport's outcome; the recorder ref is kept |
| ConsultationPage.ConsultationPage.OnConsultationSettled | frontend/src/components/ConsultationPage.tsx:99-107 | performs `Step` for the settled request; the recorder ref is kept |
| ConsultationPage.ConsultationPage.PlayAudio | frontend/src/components/ConsultationPage.tsx:110-120 | performs `Step`: with an audio URL, playback toggles; otherwise nothing changes; the recorder ref is kept |
| ConsultationPage.ConsultationPage.OnAudioEnded | frontend/src/components/ConsultationPage.tsx:412 | performs `Step`: playback is over; the recorder ref is kept |
| ConsultationPage.ConsultationPage.OnAudioPause | frontend/src/components/ConsultationPage.tsx:413 | performs `Step`: playback is paused; the recorder ref is kept |
| ConsultationPage.ConsultationPage.ResetConsultation | frontend/src/components/ConsultationPage.tsx:122-131 | performs `Step` for "New Consultation"; the recorder ref is kept |

## Left out

- The browser media APIs are not modelled: `getUserMedia`, `MediaRecorder` timing, `FileReader` decoding, and `<audio>` playback. Only their completions appear, as events; a data URL, a recorded chunk and the track count are inputs.
- `fileInputRef` is treated as always attached. The input is unmounted while a result is shown, and its remount starts empty, which is what reset leaves behind.
- ConsultationPage.ConsultationPage.StopRecording: calling the recorder's `stop()` is modelled, but `onstop` firing is not a consequence of it. `onstop` is a separate, later event.
- ConsultationPage.Enabled: the FileReader's `onload` is offered at any time. This covers a read that completes after the image was removed.
- `pending` is not a variable of the component. It counts the requests sent and not yet settled, to state "one request at a time".
- `micRequests` is not a variable of the component either. It counts the microphone requests asked for and not yet settled, so that a grant can only follow a click.
- Rendering, styling, routing, and the landing page are left out, because they are presentational.
- Axios transport, the 60-second timeout behaviour, the multipart wire encoding, and the debug logging are left out. The transport is a function parameter.
- Validation of JSON response bodies is not modelled: each response is taken to have the declared shape.
- Errors of the API client are passed through as values. JavaScript's rethrow after logging is not modelled.
- Backend.Services: the analysis services return a `string`. In brain_of_doc.py they return the model reply's `message.content`, which the Groq client may give as `None`; what the handler would then do is not modelled.
- backend/voice_of_patient.py, backend/voice_of_doctor.py and backend/brain_of_doc.py (Groq, ElevenLabs, gTTS, base64) are not part of this model. They are the opaque `Services` fields.
- Temporary-file writing and deletion, `encode_image`, and `os.getpid()` are not modelled. The pid is an input.
- `download_audio`, the root handler, CORS enforcement by the middleware, and the uvicorn startup are not part of this model.
- The prompt texts are kept verbatim, but no lemma spells out the voice prompt after replacement. `ReplaceSingle` proves the general fact. Applying it to the template needs "no `[` in the template text", which the verifier does not settle for string literals this long.
- Backend.TextToSpeechHandler: `text` is taken to be a string or absent. A JSON body whose `text` is another type (a number, a list) is not modelled.
- BadRequestText: that `str()` of a caught `HTTPException(400, detail)` reads "400: detail" is how the Starlette library formats it. main.py does not show it, and the model takes it as given. EmptyOutcomeIsRefused, NothingUploadedIsRefused and TextToSpeechHandler rely on it.
- `/analyze-image` across processes is not modelled. The server reads `transcription` as a query parameter, while the client sends it as a form part. So `Api.AnalyzeImage`'s transcription part never reaches `Backend.AnalyzeImageHandler`'s prompt, and the two are not connected.
- `/transcribe-audio` and `/analyze-image`: with the required upload missing, FastAPI rejects the request with 422 before the handler runs. That validation is not modelled.
