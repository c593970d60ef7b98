/**
 * The consultation page (frontend/src/components/ConsultationPage.tsx): the
 * component's state, the handlers that change it, and the conditions under
 * which the rendered page lets each handler run.
 *
 * `Step` says what one event does to a snapshot of the state; the class
 * `ConsultationPage` holds the same state in fields and has one method per
 * handler, each proved to perform `Step`. Every asynchronous completion
 * (microphone access, the recorder's `onstop`, the FileReader's `onload`,
 * the settled consultation request, the audio element's events) is an
 * event of its own.
 */
module ConsultationPage {
  import opened Wrappers
  import opened Media
  import opened Api

  const MIC_ERROR: string := "Failed to access microphone. Please check permissions."
  const NO_INPUT_ERROR: string := "Please provide either an audio recording or an image for analysis."
  const CONSULTATION_ERROR: string := "Failed to process consultation. Please try again."

  /** The recording is assembled as a WAV blob. */
  const RECORDING_MIME: string := "audio/wav"

  // ---------------------------------------------------------------------
  // State and events
  // ---------------------------------------------------------------------

  /**
   * A snapshot of the component: its `useState` variables, whether
   * `mediaRecorderRef` holds a recorder, the files the file input holds,
   * `pending`, the number of consultation requests not yet settled, and
   * `micRequests`, the number of `getUserMedia` calls not yet settled.
   */
  datatype PageState = PageState(
    isRecording: bool,
    hasRecorder: bool,
    audioBlob: Option<Blob>,
    selectedImage: Option<File>,
    imagePreview: Option<string>,
    result: Option<ConsultationResult>,
    isLoading: bool,
    isPlayingAudio: bool,
    error: Option<string>,
    inputFiles: seq<File>,
    pending: nat,
    micRequests: nat)

  /** How `getUserMedia` settles: a stream with some tracks, or a refusal. */
  datatype MicAccess = Granted(trackCount: nat) | Refused

  datatype Event =
    | StartClicked                               // startRecording, up to getUserMedia
    | MicrophoneSettled(access: MicAccess)       // startRecording, once getUserMedia settles
    | StopClicked                                // stopRecording
    | RecorderStopped(blob: Blob)                // mediaRecorder.onstop
    | ImagePicked(files: seq<File>)              // handleImageUpload
    | PreviewRead(dataUrl: string)               // reader.onload
    | RemoveImageClicked                         // removeImage
    | RecordAgainClicked                         // the "Record Again" button
    | SubmitClicked                              // handleSubmit, up to the request
    | ConsultationSettled(outcome: Result<ConsultationResult, ApiError>)  // handleSubmit, after the request
    | PlayClicked                                // playAudio
    | AudioEnded                                 // <audio onEnded>
    | AudioPaused                                // <audio onPause>
    | NewConsultationClicked                     // resetConsultation

  /** The artifacts `handleSubmit` hands to `medicalConsultation`. */
  datatype Submission = Submission(image: Option<File>, audio: Option<Blob>)

  /** The state `useState`'s initial values give. */
  function Initial(): PageState {
    PageState(false, false, None, None, None, None, false, false, None, [], 0, 0)
  }

  /** JavaScript truthiness of an optional string: present and not empty. */
  predicate Truthy(s: Option<string>) {
    s.Some? && s.value != ""
  }

  /** `result?.audio_url` is truthy: the audio section and its element are on the page. */
  predicate HasAudioUrl(s: PageState) {
    s.result.Some? && Truthy(s.result.value.audioUrl)
  }

  /** `isLoading || (!audioBlob && !selectedImage)`: the submit button's `disabled`. */
  predicate SubmitDisabled(s: PageState) {
    s.isLoading || (s.audioBlob.None? && s.selectedImage.None?)
  }

  /** What one event does to the state. */
  function Step(s: PageState, e: Event): PageState {
    match e
    case StartClicked =>
      s.(micRequests := s.micRequests + 1)
    case MicrophoneSettled(access) =>
      var settled := s.(micRequests := if s.micRequests > 0 then s.micRequests - 1 else 0);
      if access.Granted? then settled.(hasRecorder := true, isRecording := true)
      else settled.(error := Some(MIC_ERROR))
    case StopClicked =>
      if s.hasRecorder && s.isRecording then s.(isRecording := false) else s
    case RecorderStopped(blob) =>
      s.(audioBlob := Some(blob))
    case ImagePicked(files) =>
      if files != [] then s.(inputFiles := files, selectedImage := Some(files[0]))
      else s.(inputFiles := files)
    case PreviewRead(dataUrl) =>
      s.(imagePreview := Some(dataUrl))
    case RemoveImageClicked =>
      s.(selectedImage := None, imagePreview := None, inputFiles := [])
    case RecordAgainClicked =>
      s.(audioBlob := None)
    case SubmitClicked =>
      if s.audioBlob.None? && s.selectedImage.None? then s.(error := Some(NO_INPUT_ERROR))
      else s.(isLoading := true, error := None, pending := s.pending + 1)
    case ConsultationSettled(outcome) =>
      var settled := s.(isLoading := false, pending := if s.pending > 0 then s.pending - 1 else 0);
      if outcome.Success? then settled.(result := Some(outcome.value))
      else settled.(error := Some(CONSULTATION_ERROR))
    case PlayClicked =>
      if HasAudioUrl(s) then s.(isPlayingAudio := !s.isPlayingAudio) else s
    case AudioEnded =>
      s.(isPlayingAudio := false)
    case AudioPaused =>
      s.(isPlayingAudio := false)
    case NewConsultationClicked =>
      s.(audioBlob := None, selectedImage := None, imagePreview := None, result := None, error := None, inputFiles := [])
  }

  /** The consultation request an event sends, if any. */
  function Issued(s: PageState, e: Event): Option<Submission> {
    if e.SubmitClicked? && (s.audioBlob.Some? || s.selectedImage.Some?) then
      Some(Submission(s.selectedImage, s.audioBlob))
    else
      None
  }

  /**
   * Whether the rendered page offers the event: the form view shows while
   * there is no result; its record button is disabled while loading; the
   * drop zone shows while there is no preview; the submit button follows
   * `SubmitDisabled`; the audio section shows when the result has an audio URL.
   */
  predicate Enabled(s: PageState, e: Event) {
    match e
    case StartClicked => s.result.None? && s.audioBlob.None? && !s.isRecording && !s.isLoading
    case MicrophoneSettled(_) => s.micRequests > 0
    case StopClicked => s.result.None? && s.audioBlob.None? && s.isRecording && !s.isLoading
    case RecorderStopped(_) => s.hasRecorder
    case ImagePicked(_) => s.result.None? && !Truthy(s.imagePreview)
    case PreviewRead(_) => true
    case RemoveImageClicked => s.result.None? && Truthy(s.imagePreview)
    case RecordAgainClicked => s.result.None? && s.audioBlob.Some?
    case SubmitClicked => s.result.None? && !SubmitDisabled(s)
    case ConsultationSettled(_) => s.pending > 0
    case PlayClicked => HasAudioUrl(s)
    case AudioEnded => HasAudioUrl(s)
    case AudioPaused => HasAudioUrl(s)
    case NewConsultationClicked => s.result.Some?
  }

  // ---------------------------------------------------------------------
  // One event at a time
  // ---------------------------------------------------------------------

  /**
   * Submitting with neither a recording nor an image only sets the
   * "Please provide either…" error: no request is sent and loading does not start.
   */
  lemma SubmitWithoutArtifactsOnlyWarns(s: PageState)
    requires s.audioBlob.None? && s.selectedImage.None?
    ensures Step(s, SubmitClicked) == s.(error := Some(NO_INPUT_ERROR))
    ensures Issued(s, SubmitClicked).None?
    ensures Step(s, SubmitClicked).isLoading == s.isLoading
  {
  }

  /**
   * A submission that passes the guard starts loading, clears the error,
   * and sends the selected image and the recording as they are.
   */
  lemma SubmitStartsLoading(s: PageState)
    requires s.audioBlob.Some? || s.selectedImage.Some?
    ensures Step(s, SubmitClicked) == s.(isLoading := true, error := None, pending := s.pending + 1)
    ensures Issued(s, SubmitClicked) == Some(Submission(s.selectedImage, s.audioBlob))
  {
  }

  /**
   * Clicking an enabled submit button always sends a request; a disabled
   * button is one that is loading or has nothing to send.
   */
  lemma EnabledSubmitSends(s: PageState)
    ensures Enabled(s, SubmitClicked) ==> Issued(s, SubmitClicked).Some?
    ensures SubmitDisabled(s) <==> s.isLoading || Issued(s, SubmitClicked).None?
  {
  }

  /**
   * However the request settles, loading ends; a success stores the
   * response as the result and leaves the error alone, a failure sets the
   * fixed error and leaves the result alone.
   */
  lemma SettlingEndsLoading(s: PageState, outcome: Result<ConsultationResult, ApiError>)
    ensures !Step(s, ConsultationSettled(outcome)).isLoading
    ensures outcome.Success? ==>
              Step(s, ConsultationSettled(outcome)).result == Some(outcome.value) &&
              Step(s, ConsultationSettled(outcome)).error == s.error
    ensures outcome.Failure? ==>
              Step(s, ConsultationSettled(outcome)).error == Some(CONSULTATION_ERROR) &&
              Step(s, ConsultationSettled(outcome)).result == s.result
  {
  }

  /** Stopping does nothing unless a recorder exists and is recording; otherwise it only ends `isRecording`. */
  lemma StopOnlyWhileRecording(s: PageState)
    ensures !(s.hasRecorder && s.isRecording) ==> Step(s, StopClicked) == s
    ensures s.hasRecorder && s.isRecording ==> Step(s, StopClicked) == s.(isRecording := false)
  {
  }

  /** Clicking "Start Recording" only asks for the microphone: nothing the page shows changes yet. */
  lemma StartClickOnlyAsks(s: PageState)
    ensures Step(s, StartClicked) == s.(micRequests := s.micRequests + 1)
    ensures Step(s, StartClicked).isRecording == s.isRecording
  {
  }

  /**
   * Recording starts only once the microphone is granted; a refusal sets the
   * microphone error and leaves `isRecording` as it was. Starting never sets
   * the recording: that is the recorder's `onstop`.
   */
  lemma StartNeedsMicrophone(s: PageState, access: MicAccess)
    ensures Step(s, MicrophoneSettled(access)).isRecording <==> access.Granted? || s.isRecording
    ensures access.Refused? ==>
              Step(s, MicrophoneSettled(access)).(micRequests := s.micRequests) == s.(error := Some(MIC_ERROR))
    ensures Step(s, MicrophoneSettled(access)).audioBlob == s.audioBlob
  {
  }

  /**
   * `isRecording` turns true only when the grant arrives, so until then the
   * button still offers "Start Recording": a second click is offered, and
   * both grants are delivered, the second replacing the recorder in the ref.
   */
  lemma SecondStartIsOffered(trackCount: nat)
    ensures var g := MicrophoneSettled(Granted(trackCount));
            var trace := [StartClicked, StartClicked, g, g];
            && UiTrace(Initial(), trace)
            && Run(Initial(), trace).isRecording && Run(Initial(), trace).micRequests == 0
  {
    var g := MicrophoneSettled(Granted(trackCount));
    var s1 := Step(Initial(), StartClicked);
    var s2 := Step(s1, StartClicked);
    var s3 := Step(s2, g);
    var s4 := Step(s3, g);
    assert s2.micRequests == 2 && !s2.isRecording;
    assert Enabled(s3, g) && s4.isRecording && s4.micRequests == 0;
    assert UiTrace(s4, []);
    assert [StartClicked, StartClicked, g, g][1..] == [StartClicked, g, g];
    assert [StartClicked, g, g][1..] == [g, g];
    assert [g, g][1..] == [g];
    assert [g][1..] == [];
    assert UiTrace(s3, [g]);
    assert UiTrace(s2, [g, g]);
    assert UiTrace(s1, [StartClicked, g, g]);
    assert Run(s3, [g]) == s4;
    assert Run(s2, [g, g]) == s4;
    assert Run(s1, [StartClicked, g, g]) == s4;
  }

  /** The recording changes only through the recorder's `onstop`, "Record Again" and reset. */
  lemma OnlyOnStopSetsRecording(s: PageState, e: Event)
    ensures Step(s, e).audioBlob != s.audioBlob ==>
              e.RecorderStopped? || e.RecordAgainClicked? || e.NewConsultationClicked?
    ensures Step(s, e).audioBlob.Some? && s.audioBlob.None? ==>
              e.RecorderStopped? && Step(s, e).audioBlob == Some(e.blob)
  {
  }

  /** Removing the image clears the image, its preview and the file input, and nothing else. */
  lemma RemoveImageClearsOnlyImage(s: PageState)
    ensures var t := Step(s, RemoveImageClicked);
            && t.selectedImage.None? && t.imagePreview.None? && t.inputFiles == []
            && t.(selectedImage := s.selectedImage, imagePreview := s.imagePreview, inputFiles := s.inputFiles) == s
  {
  }

  /**
   * Reset clears the recording, the image, its preview, the result, the
   * error and the file input, and leaves recording, loading, playback and
   * the recorder as they were.
   */
  lemma ResetClearsAndKeeps(s: PageState)
    ensures var t := Step(s, NewConsultationClicked);
            && t.audioBlob.None? && t.selectedImage.None? && t.imagePreview.None?
            && t.result.None? && t.error.None? && t.inputFiles == []
            && t.isRecording == s.isRecording && t.isLoading == s.isLoading
            && t.isPlayingAudio == s.isPlayingAudio && t.hasRecorder == s.hasRecorder
            && t.pending == s.pending && t.micRequests == s.micRequests
  {
  }

  /**
   * Reset returns to the initial state exactly when what it keeps is
   * already as it starts out; after any recording the recorder is kept, so
   * a reset page is not the initial one.
   */
  lemma ResetReachesInitialOnlyWhenQuiet(s: PageState)
    ensures Step(s, NewConsultationClicked) == Initial() <==>
              !s.isRecording && !s.hasRecorder && !s.isLoading && !s.isPlayingAudio && s.pending == 0 && s.micRequests == 0
  {
  }

  // ---------------------------------------------------------------------
  // Runs of events
  // ---------------------------------------------------------------------

  /** The state after a run of events. */
  function Run(s: PageState, trace: seq<Event>): PageState
    decreases |trace|
  {
    if trace == [] then s else Run(Step(s, trace[0]), trace[1..])
  }

  /** The consultation requests a run sends, in order. */
  function Submissions(s: PageState, trace: seq<Event>): seq<Submission>
    decreases |trace|
  {
    if trace == [] then []
    else
      var sent := Issued(s, trace[0]);
      (if sent.Some? then [sent.value] else []) + Submissions(Step(s, trace[0]), trace[1..])
  }

  /** A run in which the page offered every event when it happened. */
  predicate UiTrace(s: PageState, trace: seq<Event>)
    decreases |trace|
  {
    trace == [] || (Enabled(s, trace[0]) && UiTrace(Step(s, trace[0]), trace[1..]))
  }

  /**
   * What every state the page can reach keeps: at most one request is
   * outstanding and loading shows exactly while one is; a result is never
   * shown while loading; recording needs a recorder.
   */
  predicate Consistent(s: PageState) {
    && s.pending <= 1
    && (s.isLoading <==> s.pending == 1)
    && (s.result.Some? ==> !s.isLoading)
    && (s.isRecording ==> s.hasRecorder)
  }

  /** Every request the page sends carries an artifact, so its form is never empty, whatever order events come in. */
  lemma {:induction false} SubmissionsCarryArtifact(s: PageState, trace: seq<Event>)
    ensures forall sub :: sub in Submissions(s, trace) ==>
              (sub.image.Some? || sub.audio.Some?) && ConsultationForm(sub.image, sub.audio) != []
    decreases |trace|
  {
    if trace != [] {
      SubmissionsCarryArtifact(Step(s, trace[0]), trace[1..]);
    }
  }

  /** An event the page offers keeps it consistent. */
  lemma StepKeepsConsistent(s: PageState, e: Event)
    requires Consistent(s) && Enabled(s, e)
    ensures Consistent(Step(s, e))
  {
  }

  /** A run of offered events keeps the page consistent. */
  lemma {:induction false} UiTraceKeepsConsistent(s: PageState, trace: seq<Event>)
    requires Consistent(s) && UiTrace(s, trace)
    ensures Consistent(Run(s, trace))
    decreases |trace|
  {
    if trace != [] {
      StepKeepsConsistent(s, trace[0]);
      UiTraceKeepsConsistent(Step(s, trace[0]), trace[1..]);
    }
  }

  /**
   * From the initial page, whenever the submit button is offered no
   * request is outstanding: the page never has two consultations in flight.
   */
  lemma {:induction false} NoSecondRequestInFlight(trace: seq<Event>)
    requires UiTrace(Initial(), trace)
    ensures Consistent(Run(Initial(), trace))
    ensures Enabled(Run(Initial(), trace), SubmitClicked) ==> Run(Initial(), trace).pending == 0
  {
    UiTraceKeepsConsistent(Initial(), trace);
  }

  // ---------------------------------------------------------------------
  // The recorder and its stream
  // ---------------------------------------------------------------------

  /**
   * One recording session as `startRecording` sets it up: the microphone
   * stream's tracks (`true` while live), the recorder's state, and the
   * `chunks` array its `ondataavailable` pushes into.
   */
  class Recording {
    var chunks: seq<Bytes>
    var active: bool
    const tracks: array<bool>

    constructor(trackCount: nat)
      ensures chunks == [] && !active
      ensures tracks.Length == trackCount && fresh(tracks)
      ensures forall i :: 0 <= i < tracks.Length ==> tracks[i]
    {
      chunks := [];
      active := false;
      tracks := new bool[trackCount](_ => true);
    }

    /** `mediaRecorder.start()`. */
    method Start()
      modifies this
      ensures active && chunks == old(chunks)
    {
      active := true;
    }

    /** `ondataavailable`: `chunks.push(event.data)`. */
    method OnDataAvailable(data: Bytes)
      modifies this
      ensures chunks == old(chunks) + [data] && active == old(active)
    {
      chunks := chunks + [data];
    }

    /** `mediaRecorder.stop()`. */
    method Stop()
      modifies this
      ensures !active && chunks == old(chunks)
    {
      active := false;
    }

    /**
     * `onstop`: the chunks joined into one WAV blob, and every track of the
     * stream stopped.
     */
    method OnStop() returns (blob: Blob)
      modifies tracks
      ensures blob == Blob(Concat(chunks), RECORDING_MIME)
      ensures forall i :: 0 <= i < tracks.Length ==> !tracks[i]
    {
      blob := MakeBlob(chunks, RECORDING_MIME);
      var i := 0;
      while i < tracks.Length
        invariant 0 <= i <= tracks.Length
        invariant forall j :: 0 <= j < i ==> !tracks[j]
      {
        tracks[i] := false;
        i := i + 1;
      }
    }
  }

  // ---------------------------------------------------------------------
  // The component
  // ---------------------------------------------------------------------

  class ConsultationPage {
    var isRecording: bool
    var audioBlob: Option<Blob>
    var selectedImage: Option<File>
    var imagePreview: Option<string>
    var result: Option<ConsultationResult>
    var isLoading: bool
    var isPlayingAudio: bool
    var error: Option<string>
    /** `mediaRecorderRef.current`. */
    var recorder: Recording?
    /** The files `fileInputRef.current` holds; setting its value to '' empties it. */
    var inputFiles: seq<File>
    /** Consultation requests sent and not yet settled. */
    ghost var pending: nat
    /** Microphone requests made and not yet settled. */
    ghost var micRequests: nat

    ghost function State(): PageState
      reads this
    {
      PageState(isRecording, recorder != null, audioBlob, selectedImage, imagePreview,
                result, isLoading, isPlayingAudio, error, inputFiles, pending, micRequests)
    }

    constructor()
      ensures State() == Initial() && recorder == null
    {
      isRecording := false;
      audioBlob := None;
      selectedImage := None;
      imagePreview := None;
      result := None;
      isLoading := false;
      isPlayingAudio := false;
      error := None;
      recorder := null;
      inputFiles := [];
      pending := 0;
      micRequests := 0;
    }

    /** `startRecording` up to its `await`: the microphone is asked for. */
    method StartRecording()
      modifies this
      ensures State() == Step(old(State()), StartClicked)
      ensures recorder == old(recorder)
    {
      micRequests := micRequests + 1;
    }

    /**
     * `startRecording` once `getUserMedia` has settled: with a stream, a new
     * recorder is kept in the ref and started, replacing any recorder there,
     * which is left as it was (still recording, if it was); without one, the
     * microphone error is shown.
     */
    method OnMicrophoneSettled(access: MicAccess)
      modifies this
      ensures State() == Step(old(State()), MicrophoneSettled(access))
      ensures access.Granted? ==>
                && recorder != null && fresh(recorder) && fresh(recorder.tracks)
                && recorder.active && recorder.chunks == [] && recorder.tracks.Length == access.trackCount
      ensures access.Granted? ==> forall i :: 0 <= i < recorder.tracks.Length ==> recorder.tracks[i]
      ensures access.Granted? && old(recorder) != null ==> recorder != old(recorder) && unchanged(old(recorder))
      ensures access.Refused? ==> recorder == old(recorder)
    {
      micRequests := if micRequests > 0 then micRequests - 1 else 0;
      if access.Granted? {
        var mediaRecorder := new Recording(access.trackCount);
        mediaRecorder.Start();
        recorder := mediaRecorder;
        isRecording := true;
      } else {
        error := Some(MIC_ERROR);
      }
    }

    /** `stopRecording`: stops the recorder in the ref, if there is one and it is recording. */
    method StopRecording()
      modifies this, recorder
      ensures State() == Step(old(State()), StopClicked)
      ensures recorder == old(recorder)
      ensures recorder != null ==> recorder.chunks == old(recorder.chunks)
      ensures recorder != null && old(isRecording) ==> !recorder.active
      ensures recorder != null && !old(isRecording) ==> unchanged(recorder)
    {
      if recorder != null && isRecording {
        recorder.Stop();
        isRecording := false;
      }
    }

    /** The `onstop` of `session`'s recorder: store its chunks as the recording and stop its tracks. */
    method OnRecorderStop(session: Recording)
      modifies this, session.tracks
      ensures State() == Step(old(State()), RecorderStopped(Blob(Concat(session.chunks), RECORDING_MIME)))
      ensures recorder == old(recorder)
      ensures forall i :: 0 <= i < session.tracks.Length ==> !session.tracks[i]
    {
      var blob := session.OnStop();
      audioBlob := Some(blob);
    }

    /** `handleImageUpload`: the input now holds `files`; the first, if any, becomes the selected image. */
    method HandleImageUpload(files: seq<File>)
      modifies this
      ensures State() == Step(old(State()), ImagePicked(files))
      ensures recorder == old(recorder)
    {
      inputFiles := files;
      if files != [] {
        selectedImage := Some(files[0]);
      }
    }

    /** `reader.onload`: the data URL becomes the preview. */
    method OnPreviewLoad(dataUrl: string)
      modifies this
      ensures State() == Step(old(State()), PreviewRead(dataUrl))
      ensures recorder == old(recorder)
    {
      imagePreview := Some(dataUrl);
    }

    /** `removeImage`. */
    method RemoveImage()
      modifies this
      ensures State() == Step(old(State()), RemoveImageClicked)
      ensures recorder == old(recorder)
    {
      selectedImage := None;
      imagePreview := None;
      inputFiles := [];
    }

    /** The "Record Again" button: `setAudioBlob(null)`. */
    method RecordAgain()
      modifies this
      ensures State() == Step(old(State()), RecordAgainClicked)
      ensures recorder == old(recorder)
    {
      audioBlob := None;
    }

    /**
     * `handleSubmit` up to its `await`: refuse with nothing to send, else
     * start loading and send the image and the recording through the API
     * client. The request's outcome is handed back for `OnConsultationSettled`.
     */
    method HandleSubmit(client: ClientConfig, transport: Request -> Result<ConsultationResult, ApiError>)
      returns (submission: Option<Submission>, outcome: Option<Result<ConsultationResult, ApiError>>)
      modifies this
      ensures State() == Step(old(State()), SubmitClicked)
      ensures recorder == old(recorder)
      ensures submission == Issued(old(State()), SubmitClicked)
      ensures outcome.Some? <==> submission.Some?
      ensures submission.Some? ==>
                outcome.value == transport(MultipartPost(client, CONSULTATION_PATH,
                                                         ConsultationForm(submission.value.image, submission.value.audio)))
    {
      if audioBlob.None? && selectedImage.None? {
        error := Some(NO_INPUT_ERROR);
        submission := None;
        outcome := None;
        return;
      }
      isLoading := true;
      error := None;
      pending := pending + 1;
      submission := Some(Submission(selectedImage, audioBlob));
      var sent, response := Api.MedicalConsultation(client, transport, selectedImage, audioBlob);
      outcome := Some(response);
    }

    /** `handleSubmit` after its `await`: store the result or the error, then stop loading. */
    method OnConsultationSettled(outcome: Result<ConsultationResult, ApiError>)
      modifies this
      ensures State() == Step(old(State()), ConsultationSettled(outcome))
      ensures recorder == old(recorder)
    {
      if outcome.Success? {
        result := Some(outcome.value);
      } else {
        error := Some(CONSULTATION_ERROR);
      }
      isLoading := false;
      pending := if pending > 0 then pending - 1 else 0;
    }

    /** `playAudio`: with an audio URL (and so an audio element), toggle playback. */
    method PlayAudio()
      modifies this
      ensures State() == Step(old(State()), PlayClicked)
      ensures recorder == old(recorder)
    {
      if result.Some? && result.value.audioUrl.Some? && result.value.audioUrl.value != "" {
        if isPlayingAudio {
          isPlayingAudio := false;
        } else {
          isPlayingAudio := true;
        }
      }
    }

    /** The audio element's `onEnded`. */
    method OnAudioEnded()
      modifies this
      ensures State() == Step(old(State()), AudioEnded)
      ensures recorder == old(recorder)
    {
      isPlayingAudio := false;
    }

    /** The audio element's `onPause`. */
    method OnAudioPause()
      modifies this
      ensures State() == Step(old(State()), AudioPaused)
      ensures recorder == old(recorder)
    {
      isPlayingAudio := false;
    }

    /** `resetConsultation`. */
    method ResetConsultation()
      modifies this
      ensures State() == Step(old(State()), NewConsultationClicked)
      ensures recorder == old(recorder)
    {
      audioBlob := None;
      selectedImage := None;
      imagePreview := None;
      result := None;
      error := None;
      inputFiles := [];
    }
  }
}
