# Synchronizer transcription and analysis core, in Dafny

This project models the bookkeeping at the core of the speechNR
"Synchronizer" application. It covers two source files.

`transcription.py`, function `transcribe_and_diarize`:

- the choice of the Whisper model name;
- the no-speech exit;
- clamping each segment's embedding window to the audio's duration;
- naming each cluster label `SPEAKER k`;
- the transcript records (time from the recording start, speaker, stripped
  text);
- the formatted transcript, which groups consecutive segments of one speaker
  under a `speaker HH:MM:SS` header.

`main.py`, class `MainApplication`:

- the form the "Transcribe and Diarize" button reads: comma-separated topics
  and the ticked model checkboxes;
- the gate that refuses to start without audio or without topics;
- the per-model analysis loop with its table from a model's short name to the
  identifier it is published under;
- `flatten_parameters`, which flattens stimulation-parameter payloads into
  flat records, including every Python exception a malformed payload raises.

The machine-learning libraries are not modelled. Their results are inputs to
the model:

- Whisper's segments;
- the audio duration;
- the agglomerative-clustering labels;
- whether the recognition step raised;
- one outcome per model identifier from the topic-relevance pipeline.

Times are exact real seconds from a local midnight, where the source uses
floats and `datetime` values (see "## Left out"). `Clock.HhMmSs` renders the
`%H:%M:%S` of such a time. The display functions take the time formatter as a
parameter, and the application passes `Clock.HhMmSs`.

Modules, one per file:

- `Wrappers`: `Option` and `Result`.
- `Text`: Python's `str.isspace`, `strip`, `split` and `str(int)`.
- `Clock`: the `HH:MM:SS` rendering.
- `Transcription`: `transcription.py`.
- `Parameters`: `flatten_parameters`, over a JSON value type.
- `Selection`: the form's comprehensions and the model-identifier table.
- `Application`: class `MainApplication`, the gate and the per-model loop.

Three details of the formatted transcript and the speaker labels:

- Each segment contributes its text without its first character, followed by
  one space. So the formatted transcript ends with a space, and every header
  starts with a newline.
- A speaker label is a string, `SPEAKER ` followed by the cluster id plus one.
- The cluster labels are an input. How many distinct labels the clustering
  returns for `num_speakers` clusters is up to the clustering library. The
  model proves only their range (`Transcription.SpeakersInRange`).

## Model

| member | source | states |
|---|---|---|
| Transcription.WhisperModelName | transcription.py:17-19 | The model name is the size itself unless the language is English and the size is not `large`. In that case it is the size followed by `.en`. |
| Transcription.CropWindow | transcription.py:45-46 | A window starts where its segment starts. It ends at the earlier of the segment's end and the audio duration, so it never runs past either. |
| Transcription.CropWindows | transcription.py:54-57 | Exactly one window per segment, in segment order, each clamped to the duration as above. |
| Transcription.SpeakerName | transcription.py:65 | The label of cluster id `id` reads back as speaker number `id + 1` (`SPEAKER ` followed by the decimal numeral). |
| Transcription.SpeakerNameInjective | transcription.py:65 | Two cluster ids get the same speaker label exactly when they are equal. |
| Transcription.WithSpeakers | transcription.py:64-65 | Labelling keeps every segment's start, end and text. It gives segment `i` the speaker numbered `labels[i] + 1`. |
| Transcription.SpeakersInRange | transcription.py:62-65 | When every cluster label is below the speaker count `n`, every speaker number lies in `1..n`. |
| Transcription.AssignSpeakers | transcription.py:64-65 | The in-place loop leaves the segment array equal to its labelled version. |
| Transcription.RecordTimesSorted | transcription.py:68-77 | When the segments start in order, the record times are in order. |
| Transcription.BuildRecords | transcription.py:68-77 | One record per segment. Each holds the recording start plus the segment start, the segment's speaker and its stripped text. The records are time-sorted when the segment starts are sorted. |
| Transcription.DropFirst | transcription.py:88 | Slicing `[1:]` gives the empty text for the empty text, and otherwise the text without its first character. |
| Transcription.StepRender | transcription.py:86-88 | One iteration prints the header line when the segment opens a block, then the segment's body. |
| Transcription.RenderStep | transcription.py:86-88 | Printing one more segment appends exactly that iteration's header (if any) and body to what is already printed. |
| Transcription.OpensBlockLabelled | transcription.py:86 | The loop's test `i == 0 or current != previous` holds exactly when segment `i` opens a block. |
| Transcription.FormatTranscript | transcription.py:80-89 | The loop builds exactly the rendering of the display pieces of all segments. |
| Transcription.Blocks | transcription.py:81-87 | Cutting into blocks gives non-empty blocks, none at all only for no segments, and the last block ends with the last segment. |
| Transcription.BlocksFlatten | transcription.py:81-87 | Concatenating the blocks gives back the segments. |
| Transcription.BlocksRuns | transcription.py:81-87 | Each block has one speaker, and neighbouring blocks have different speakers. |
| Transcription.BlocksCount | transcription.py:81-87 | There is one block more than there are speaker changes. |
| Transcription.DisplayGrouped | transcription.py:80-89 | The formatted transcript is each block in turn: one header for the block's first segment, then the bodies of all its segments. |
| Transcription.DisplayHeaders | transcription.py:83-87 | The headers are those of each block's first segment, in order. Their number is 1 plus the number of speaker changes, or 0 without segments. |
| Transcription.DisplayBodies | transcription.py:88 | The bodies are every segment's text without its first character, followed by a space, in segment order. |
| Transcription.LabelledRecords | transcription.py:64-77 | The records of the labelled segments carry `SpeakerName(labels[i])` with the original segment's time and stripped text. |
| Transcription.TranscribeAndDiarize | transcription.py:15-91 | The model name is chosen as above. There is no speech exactly when there are no segments. Otherwise there is one clamped window per segment, the records above, and the formatted transcript rendered with `HH:MM:SS` times. |
| Text.Strip | transcription.py:72 | `strip()` never lengthens a text. Its exact result is stated by the next four lemmas. |
| Text.StripInfix | transcription.py:72 | `strip()` returns the slice that follows the leading whitespace. Everything after that slice is whitespace. |
| Text.StripEnds | transcription.py:72 | A non-empty stripped text neither starts nor ends with whitespace. |
| Text.StripEmpty | main.py:674 | A text strips to nothing exactly when it is all whitespace. |
| Text.StripUnpadded | main.py:674 | Stripping leaves a text without whitespace at either end unchanged. |
| Text.Split | main.py:674 | `split(sep)` gives at least one piece. Its exact result is stated by the next three lemmas. |
| Text.SplitPieces | main.py:674 | No piece of `split(',')` contains a comma. |
| Text.JoinSplit | main.py:674 | Joining the pieces of `split(sep)` with `sep` gives back the input. |
| Text.SplitConcat | main.py:674 | Splitting `a + sep + b` splits `a` and `b` separately. |
| Text.Decimal | transcription.py:65 | `str(n)` is a non-empty string of digits without a leading zero whose value is `n`. |
| Text.DecimalInjective | transcription.py:65 | Different numbers have different numerals. |
| Clock.SecondOfDay | transcription.py:85 | The second of the day of a time is below 86400. |
| Clock.HhMmSs | transcription.py:85 | The reading is eight characters long. |
| Clock.HhMmSsReading | transcription.py:85 | The reading is `HH:MM:SS` with hours below 24 and minutes and seconds below 60. It denotes the second of the day of the time. |
| Selection.ParseTopics | main.py:674 | Defines the topics: the comma-separated pieces, stripped, the empty ones dropped, in order. Its properties are the lemmas below. |
| Selection.KeepStrippedOrigin | main.py:674 | Every topic is non-empty and is the strip of one of the comma-separated pieces. |
| Selection.TopicsShape | main.py:674 | Every topic is non-empty, has no whitespace at either end and contains no comma. |
| Selection.ParseTopicsConcat | main.py:674 | The topics of `a,b` are the topics of `a` followed by those of `b`. |
| Selection.ParseTopicsPiece | main.py:674 | A piece without commas gives exactly its strip as the one topic, or no topic when it is all whitespace. With `ParseTopicsConcat` this fixes the topics of every input. |
| Selection.ParseTopicsSingle | main.py:674 | A text without commas and without surrounding whitespace is the single topic. |
| Selection.NoTopicsBlank | main.py:674 | There are no topics exactly when the input holds only commas and whitespace. |
| Selection.SelectModels | main.py:675 | Selects at most one model per checkbox. Its membership and order are stated by the next two lemmas. |
| Selection.SelectModelsMembers | main.py:675 | A model is selected exactly when one of its checkboxes holds the value 1. |
| Selection.SelectModelsAppend | main.py:675 | Selection keeps checkbox order. |
| Selection.InitialSelection | main.py:188-196 | The form as built selects `paraphrase-mpnet-base-v2` alone. |
| Selection.ModelId | main.py:723-728 | Looks a model's identifier up in the table, with no identifier for a model outside it. Its properties are the next three lemmas. |
| Selection.ModelIdKnown | main.py:723-728 | A model has an identifier exactly when it is one of the four offered models. |
| Selection.ModelIdPublished | main.py:723-728 | Every identifier is non-empty and starts with `sentence-transformers/`. |
| Selection.ModelIdInjective | main.py:723-728 | Different models have different identifiers. |
| Parameters.LocalTime | main.py:645 | Accepts a number, a boolean or `None` as the argument of `localtime` and raises a `TypeError` otherwise. The date it renders is not modelled. |
| Parameters.ReadItem | main.py:643-645 | Reads an item's timestamp, then its parameters, then the local time, raising at the first that fails. Specified through `FlattenParameters`. |
| Parameters.ColumnField | main.py:651-654 | Evaluates a `StimColumns` field the way Python does. Specified by `ColumnFieldSpec`. |
| Parameters.WaveformName | main.py:655-656 | Evaluates `Waveform_Name` the way Python does. Specified by `WaveformNameSpec`. |
| Parameters.HasRows | main.py:658-659 | Evaluates the guard of `Frequency` and `Amplitude`, one test at a time. Specified through `RowFieldSpec`. |
| Parameters.RowField | main.py:657-662 | Evaluates `Frequency` or `Amplitude` the way Python does. Specified by `RowFieldSpec`. |
| Parameters.FlattenOne | main.py:647-663 | Evaluates the record of one payload field by field, in order, stopping at the first exception. Specified by `FlattenOneSpec`. |
| Parameters.ColumnFieldSpec | main.py:651-654 | A `StimColumns` field raises nothing exactly when the columns are falsy or a non-empty list whose first entry is an object. For a well-formed payload it is the first column's field, or `None`. |
| Parameters.WaveformNameSpec | main.py:655-656 | `Waveform_Name` raises nothing exactly when the waveforms are falsy or a non-empty list whose first entry is an object. It is then the first waveform's `Name`, or `None`. |
| Parameters.RowFieldSpec | main.py:657-662 | `Frequency` and `Amplitude` raise nothing exactly when the first column's `StimRows` is well formed. For a well-formed payload they are the first row's field, or `None`. |
| Parameters.FlattenOneSpec | main.py:647-663 | Flattening one payload raises nothing exactly when the payload is well formed. It then gives the expected flat record. |
| Parameters.ExpectedAllCount | main.py:642-668 | There is one flat record per item whose parameters are not `None`. |
| Parameters.ExpectedAllAppend | main.py:642-668 | Flattening works item by item, in order. |
| Parameters.FlattenParameters | main.py:640-670 | The loop returns without raising exactly when every item is well formed. It then returns the expected records of the items with parameters, in order. |
| Application.Gate | main.py:680-688 | The form is admitted exactly when there is a non-empty audio path and at least one topic. A missing or empty path gives "No Audio" whatever the topics. A path without topics gives "No Topics". |
| Application.GateTopics | main.py:674-688 | With audio recorded, the form is admitted exactly when the topic input is not just commas and whitespace. Otherwise the warning is "No Topics". |
| Application.ModelNotice | main.py:723-763 | Gives the notice one pass of the loop posts for one model. Specified by `ModelNoticeSpec`. |
| Application.ModelNotices | main.py:722-763 | Specifies what the loop posts: one notice per selected model, in order. `AnalyseModels` is the loop itself. |
| Application.ModelNoticeSpec | main.py:722-763 | A model's notice names the model. It is "Model Not Found" exactly for a model outside the table. For a model in the table it is "Completed", "No Data" or "Processing Error" exactly as the analysis of its identifier succeeds, comes back empty or raises. |
| Application.ModelNoticesIsolated | main.py:722-763 | A model's notice depends only on the analysis of its own identifier. |
| Application.CompletedModels | main.py:722-763 | A model is reported completed exactly when it is selected, offered, and its analysis succeeds. |
| Application.MainApplication.constructor | main.py:53-71 | The application starts with the default checkbox selection, no topics, no models, no audio, no start time, no transcript, no notices and the transcribe button disabled. |
| Application.MainApplication.TranscribeAndAnalyze | main.py:672-694 | The button reads the topics and the selected models. It starts the work exactly when the gate admits the form, and then disables the button. Otherwise it posts the gate's warning and leaves the button as it was. |
| Application.MainApplication.ReadForm | main.py:674-675 | Topics and selected models are set from the form. |
| Application.MainApplication.Admit | main.py:680-691 | The gate's if-chain: it posts the warning, or it disables the button and starts. |
| Application.MainApplication.PerformTranscriptionAndAnalysis | main.py:696-769 | The worker always re-enables the button. A transcription error posts only that error and keeps the old transcript. Without speech it posts "Started" and "No Speech Detected" and clears the transcript. Otherwise it posts "Started" and one notice per selected model, and stores the records and the formatted transcript of the recognised segments. |
| Application.MainApplication.StoreTranscript | main.py:699-719 | It reports speech exactly when there are segments. It stores no transcript without speech, and otherwise the records and formatted transcript of the segments. |
| Application.MainApplication.AnalyseModels | main.py:722-763 | The loop appends one notice per selected model, in selection order. |

## Left out

- Whisper inference is not modelled. Its segments are an input, and `result.get("segments", [])` is the given segment sequence.
- The speaker-embedding model (SpeechBrain ECAPA) and `audio.crop` are not modelled. Their input, the clamped window, is modelled.
- `np.nan_to_num` and `AgglomerativeClustering` are not modelled. The cluster labels are an input.
- Reading the WAV file is not modelled. The duration is an input.
- `topicrelevance.py` is not part of this model. Each model's `process_data` and `perform_clustering` are collapsed into one outcome: analysed, empty data, or raised.
- Dates are not modelled. The headers' `datetime.strftime('%H:%M:%S')` is rendered from seconds since a local midnight. The date of `flatten_parameters`' `time.strftime`, time zones and daylight saving are out of scope.
- Float arithmetic is not modelled. Segment offsets are Python floats, and `timedelta(seconds=...)` rounds an offset to microseconds before `%S` truncates it. The model adds exact reals. So a time near a second boundary can show the next second in the source and the earlier one in the model. For example, an offset of 0.29 (the float 0.28999999999999998) after a start time at .710000 seconds does this. The same holds for the record times.
- Transcription.TranscribeAndDiarize: the formatted transcript is stated with the time formatter as a parameter. The top level passes `Clock.HhMmSs`, whose own properties are proved separately.
- Parameters.FlattenParameters: the timestamp is kept as given, not rendered as a date. Only `time.localtime`'s argument type is checked, and its `OverflowError`/`OSError` on out-of-range numbers are not modelled.
- Parameters.FlattenParameters: the contract says when an exception is raised, not which one. The kind is computed but not stated.
- Application.MainApplication.PerformTranscriptionAndAnalysis: any exception of the recognition libraries is one `None` recognition. The `TypeError` of a missing start time with speech present is folded into that same error path.
- Application.MainApplication.StoreTranscript: cluster labels beyond the number of segments are ignored.
- The GUI is not modelled: widgets, plots, message text beyond the notice kind, `after`, `update_transcription_text` and the speaker-count slider. Threads, logging, audio recording and playback, the network connection and files on disk are not modelled either.
- The worker thread is not modelled: `PerformTranscriptionAndAnalysis` is a separate method the caller runs after `TranscribeAndAnalyze` returns `true`.
- The `if not model_id` test for an empty identifier is kept, although no identifier in the table is empty (`Selection.ModelIdPublished`).
