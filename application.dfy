/**
  The "Transcribe and Diarize" workflow of the main window: the button's
  gate, the transcription of the recording, and the topic analysis run once
  per selected sentence-embedding model. Message boxes are recorded as a
  list of notices; the speech libraries and the topic-relevance pipeline
  are inputs.
 */
module Application {
  import opened Wrappers
  import opened Text
  import opened Transcription
  import opened Selection

  /** The message boxes of the workflow, in the order they are shown. */
  datatype Notice =
    | NoAudio
    | NoTopics
    | TranscriptionError
    | TranscriptionStarted
    | NoSpeechDetected
    | ModelNotFound(model: string)
    | NoData(model: string)
    | ProcessingError(model: string)
    | Completed(model: string)

  /** What the speech libraries produce for the recording: Whisper's
      segments, the length of the audio in seconds, and the cluster label of
      each segment. */
  datatype Recognition = Recognition(segments: seq<Segment>, duration: real, labels: seq<nat>)

  /** How the topic-relevance pipeline ends for one model: with data it
      clusters and plots, with an empty frame, or with an exception. */
  datatype Analysis = Analysed | EmptyData | Failed

  /** The warning that keeps the analysis from starting, if any: no audio
      recorded (no path, or an empty one), or no topic entered. */
  function Gate(audioFilePath: Option<string>, topics: seq<string>): (warning: Option<Notice>)
    ensures warning.None? <==> audioFilePath.Some? && audioFilePath.value != [] && topics != []
    ensures audioFilePath.None? || audioFilePath.value == [] ==> warning == Some(NoAudio)
    ensures audioFilePath.Some? && audioFilePath.value != [] && topics == [] ==> warning == Some(NoTopics)
  {
    if audioFilePath.None? || audioFilePath.value == [] then Some(NoAudio)
    else if topics == [] then Some(NoTopics)
    else None
  }

  /** With a recording, the analysis starts exactly when the topic field
      holds something besides commas and whitespace. */
  lemma GateTopics(path: string, input: string)
    requires path != []
    ensures Gate(Some(path), ParseTopics(input)).None? <==> !Blank(input)
    ensures Gate(Some(path), ParseTopics(input)).Some? ==> Gate(Some(path), ParseTopics(input)).value == NoTopics
  {
    NoTopicsBlank(input);
  }

  /** The notice of one selected model: not found when the identifier table
      has no entry for it, otherwise the outcome of the analysis under its
      identifier. */
  function ModelNotice(name: string, analysis: string -> Analysis): Notice {
    match ModelId(name)
    case None => ModelNotFound(name)
    case Some(id) =>
      if id == [] then ModelNotFound(name)
      else match analysis(id)
        case Analysed => Completed(name)
        case EmptyData => NoData(name)
        case Failed => ProcessingError(name)
  }

  /** One notice per selected model, in selection order. */
  function ModelNotices(models: seq<string>, analysis: string -> Analysis): (notices: seq<Notice>)
    ensures |notices| == |models|
  {
    seq(|models|, i requires 0 <= i < |models| => ModelNotice(models[i], analysis))
  }

  /** A model's notice names that model; it is "not found" exactly when the
      model is not one of those offered, and otherwise reports the model's
      own analysis. */
  lemma ModelNoticeSpec(name: string, analysis: string -> Analysis)
    ensures ModelNotice(name, analysis).model == name
    ensures ModelNotice(name, analysis).ModelNotFound? <==> name !in CheckboxModels
    ensures name in CheckboxModels ==>
      var outcome := analysis(ModelIds[name]);
      && (ModelNotice(name, analysis).Completed? <==> outcome == Analysed)
      && (ModelNotice(name, analysis).NoData? <==> outcome == EmptyData)
      && (ModelNotice(name, analysis).ProcessingError? <==> outcome == Failed)
  {
    ModelIdKnown(name);
    ModelIdPublished(name);
  }

  /** One model's outcome only affects that model's notice: two runs whose
      analyses agree on a model give it the same notice, whatever happens to
      the others. */
  lemma ModelNoticesIsolated(models: seq<string>, a: string -> Analysis, b: string -> Analysis, i: nat)
    requires i < |models|
    requires models[i] in ModelIds ==> a(ModelIds[models[i]]) == b(ModelIds[models[i]])
    ensures ModelNotices(models, a)[i] == ModelNotices(models, b)[i]
  {
  }

  /** A model is reported completed exactly when it was selected, is
      offered, and its analysis produced data. */
  lemma CompletedModels(models: seq<string>, analysis: string -> Analysis, name: string)
    ensures Completed(name) in ModelNotices(models, analysis) <==>
      name in models && name in CheckboxModels && analysis(ModelIds[name]) == Analysed
  {
    var notices := ModelNotices(models, analysis);
    ModelIdKnown(name);
    ModelIdPublished(name);
    if Completed(name) in notices {
      var i :| 0 <= i < |notices| && notices[i] == Completed(name);
      ModelNoticeSpec(models[i], analysis);
    }
    if name in models && name in CheckboxModels && analysis(ModelIds[name]) == Analysed {
      var i :| 0 <= i < |models| && models[i] == name;
      assert notices[i] == Completed(name);
    }
  }

  class MainApplication {
    /** The model checkboxes. */
    var modelVars: seq<ModelVar>
    var topics: seq<string>
    var selectedModels: seq<string>
    /** Set by the recorder: the saved WAV file and when recording began. */
    var audioFilePath: Option<string>
    var startTime: Option<real>
    var transcription: Option<seq<Record>>
    var formattedTranscript: Option<string>
    /** Whether the "Transcribe and Diarize" button can be pressed. */
    var transcribeEnabled: bool
    /** The message boxes shown so far. */
    var notices: seq<Notice>

    /** The window as it opens: default model ticked, nothing recorded, the
        button disabled until a server connection or a recording enables it. */
    constructor ()
      ensures modelVars == InitialVars()
      ensures topics == [] && selectedModels == []
      ensures audioFilePath == None && startTime == None
      ensures transcription == None && formattedTranscript == None
      ensures !transcribeEnabled && notices == []
    {
      modelVars := InitialVars();
      topics := [];
      selectedModels := [];
      audioFilePath := None;
      startTime := None;
      transcription := None;
      formattedTranscript := None;
      transcribeEnabled := false;
      notices := [];
    }

    /** `transcribe_and_analyze`: reads the topics and the ticked models,
        then either warns and stops, or disables the button and starts the
        background run (reported in `started`). */
    method TranscribeAndAnalyze(topicsInput: string) returns (started: bool)
      modifies this`topics, this`selectedModels, this`notices, this`transcribeEnabled
      ensures topics == ParseTopics(topicsInput)
      ensures selectedModels == SelectModels(modelVars)
      ensures var warning := Gate(audioFilePath, topics);
        && (started <==> warning.None?)
        && notices == old(notices) + (if started then [] else [warning.value])
      ensures transcribeEnabled == (if started then false else old(transcribeEnabled))
    {
      ReadForm(topicsInput);
      started := Admit();
    }

    /** The two comprehensions: the topics typed and the models ticked. */
    method ReadForm(topicsInput: string)
      modifies this`topics, this`selectedModels
      ensures topics == ParseTopics(topicsInput)
      ensures selectedModels == SelectModels(modelVars)
    {
      topics := ParseTopics(topicsInput);
      selectedModels := SelectModels(modelVars);
    }

    /** The two checks before the run: warn and stop, or disable the button
        and start. */
    method Admit() returns (started: bool)
      modifies this`notices, this`transcribeEnabled
      ensures var warning := Gate(audioFilePath, topics);
        && (started <==> warning.None?)
        && notices == old(notices) + (if started then [] else [warning.value])
      ensures transcribeEnabled == (if started then false else old(transcribeEnabled))
    {
      if audioFilePath.None? || audioFilePath.value == [] {
        notices := notices + [NoAudio];
        return false;
      }
      if topics == [] {
        notices := notices + [NoTopics];
        return false;
      }
      transcribeEnabled := false;
      return true;
    }

    /** `perform_transcription_and_analysis`. `recognition` is `None` when
        a speech library raises; `analysis` is the pipeline's outcome under
        a model identifier. A failed transcription and an empty one stop
        before any model is analysed; otherwise every selected model gets
        its notice, whatever the others' outcomes. The button is enabled
        again on every path. */
    method PerformTranscriptionAndAnalysis(recognition: Option<Recognition>, analysis: string -> Analysis)
      modifies this`transcription, this`formattedTranscript, this`notices, this`transcribeEnabled
      ensures transcribeEnabled
      ensures !Transcribes(recognition, startTime) ==>
        && notices == old(notices) + [TranscriptionError]
        && transcription == old(transcription) && formattedTranscript == old(formattedTranscript)
      ensures Transcribes(recognition, startTime) && recognition.value.segments == [] ==>
        && notices == old(notices) + [TranscriptionStarted, NoSpeechDetected]
        && transcription == None && formattedTranscript == None
      ensures Transcribes(recognition, startTime) && recognition.value.segments != [] ==>
        && notices == old(notices) + [TranscriptionStarted] + ModelNotices(selectedModels, analysis)
        && TranscriptOf(recognition.value, startTime.value, transcription, formattedTranscript)
    {
      if !Transcribes(recognition, startTime) {
        notices := notices + [TranscriptionError];
        transcribeEnabled := true;
        return;
      }
      var speech := StoreTranscript(recognition.value);
      if !speech {
        notices := notices + [TranscriptionStarted, NoSpeechDetected];
        transcribeEnabled := true;
        return;
      }
      notices := notices + [TranscriptionStarted];
      AnalyseModels(analysis);
      transcribeEnabled := true;
    }

    /** The assignment from `transcribe_and_diarize`'s result: `None` for
        both when there is no speech, the records and the display text
        otherwise. */
    method StoreTranscript(r: Recognition) returns (speech: bool)
      requires Transcribes(Some(r), startTime)
      modifies this`transcription, this`formattedTranscript
      ensures speech <==> r.segments != []
      ensures !speech ==> transcription == None && formattedTranscript == None
      ensures speech ==> TranscriptOf(r, startTime.value, transcription, formattedTranscript)
    {
      var labels := if r.segments == [] then [] else r.labels[..|r.segments|];
      var origin := if startTime.Some? then startTime.value else 0.0;
      var _, _, outcome := TranscribeAndDiarize("any", "medium", r.segments, r.duration, labels, origin);
      if outcome.NoSpeech? {
        transcription, formattedTranscript := None, None;
        return false;
      }
      transcription, formattedTranscript := Some(outcome.records), Some(outcome.formatted);
      return true;
    }

    /** The per-model loop: each selected model adds its own notice, and no
        outcome stops the loop. */
    method AnalyseModels(analysis: string -> Analysis)
      modifies this`notices
      ensures notices == old(notices) + ModelNotices(selectedModels, analysis)
    {
      for i := 0 to |selectedModels|
        invariant notices == old(notices) + ModelNotices(selectedModels[..i], analysis)
      {
        assert ModelNotices(selectedModels[..i + 1], analysis)
          == ModelNotices(selectedModels[..i], analysis) + [ModelNotice(selectedModels[i], analysis)];
        notices := notices + [ModelNotice(selectedModels[i], analysis)];
      }
      assert selectedModels[..|selectedModels|] == selectedModels;
    }
  }

  /** The stored result of transcribing a recording with speech that began
      at `origin`: one record per segment, stamped with its start, named by
      its cluster label and holding its stripped text, and the display text
      of the labelled segments. */
  predicate TranscriptOf(r: Recognition, origin: real, transcription: Option<seq<Record>>, formatted: Option<string>)
    requires |r.labels| >= |r.segments|
  {
    && transcription.Some? && |transcription.value| == |r.segments|
    && (forall i | 0 <= i < |r.segments| ::
          transcription.value[i] == Record(origin + r.segments[i].start, SpeakerName(r.labels[i]), Strip(r.segments[i].text)))
    && formatted == Some(Render(Display(WithSpeakers(r.segments, r.labels[..|r.segments|]), origin, Clock.HhMmSs)))
  }

  /** Whether `transcribe_and_diarize` returns rather than raises: the
      speech libraries succeed and, when there is speech, every segment has
      a cluster label and the recording's start time is known (adding a
      segment's offset to `None` raises). */
  predicate Transcribes(recognition: Option<Recognition>, startTime: Option<real>) {
    && recognition.Some?
    && (recognition.value.segments != [] ==>
          |recognition.value.labels| >= |recognition.value.segments| && startTime.Some?)
  }
}
