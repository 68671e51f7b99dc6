# AudioTranscription core, modelled in Dafny

This project models the core of AudioTranscription, a Python toolkit that
builds speech datasets. It covers these stages:

- It cuts recordings on silence.
- It sends audio to a remote speech-to-text model. The replies are JSON lists
  of records. The client rotates between API keys and retries with backoff.
- It aligns the transcript with the audio.
- It cuts one padded clip per aligned sentence.
- It merges the aligned clips back into the transcription records.

It also models the labelling demo's helpers:

- the result-cache keys, in both of their versions;
- the settings stored in the session and the cache lookup of the processing
  page;
- the in-memory archive that exports the labelled clips.

The model uses these representations:

- Audio is a sequence of integer frames, one per millisecond. A pydub
  `len(segment)` is the length of the sequence, and `+` is concatenation.
- The arguments the functions accept are an `AudioArg`: a path, a BytesIO with
  its optional `.name`, raw `bytes`, or anything else.
- Result dictionaries are `map<string, Field>`. A value is a string or an
  in-memory audio clip.
- Exceptions carry their Python class and their message.
- The remote service, `json.loads`, MD5, pydub's decoder and silence
  detector, the aligner, python-magic, `mimetypes`, file reads and the
  picks of `random.choices` are not modelled. They are function-typed
  parameters (oracles), and the model proves its properties for every
  oracle. Remote calls, including each `files.delete`, the listing and
  python-magic's type detection, may raise. So may file reads (`open` of a
  missing path) and pydub's decoding (`AudioSegment.from_file`), and each
  such error is carried out of the call that met it.
- Waits, rotations, uploads and deletions are recorded as events in a ghost
  log, so the properties can speak about them.

There is one file per source module, each written in the form of its source:

- **`split_audio.dfy`** (`SplitAudio`). The greedy accumulate-and-flush loop
  is a method. It is proved equal to a recursive specification
  (`GreedySegments`), whose properties are lemmas.
- **`stt_llm.dfy`** (`SttLlm`). Response parsing and MIME normalisation are
  pure functions. `transcript_audio`'s retry loop is a set of methods over the
  shared credential pool (`credentials.dfy`). Each method is proved equal to a
  specification of the loop. Every deletion may raise and is only printed;
  the listing loop of the `finally` clause sits in one `try`, so its first
  failure ends it.
- **`audio_processor.dfy`** (`AudioProcessor`). The merge is a method over
  mutable dictionary objects, so the in-place `update` of a shallow copy is
  visible. It is specified by an update function that follows aliasing, and
  by a value merge for the aliasing-free case.
- **`text_aligner.dfy`** (`TextAligner`). The cut/pad/name loop and the save
  loop are methods, specified by functions on segments.
- **`audio_understanding.dfy`** (`AudioUnderstanding`). The batch transcriber
  includes the upload loop, Filename tagging and the rate-limit-only retry.
  The split mode recursion is modelled as nested methods. `transcript_split_audio`
  is modelled too. The retry loop is stated over `Replies`, the parsed reply
  for each key index and attempt, which `RepliesOf` takes from the Gemini
  client. The loop over the parts of a file is stated over the run of one
  part, which `PartRunOf` fixes as an unsplit transcription. The type
  detection of a BytesIO calls `from_buffer(..., mime=True)` on a
  `Magic()` instance. python-magic's `Magic.from_buffer` takes no `mime`
  keyword, so there this raises TypeError before the upload. The model lets
  the detection raise and carries its exception out of the call
  (`UploadsMimeRaises`, `NonSplitSingle`).
- **`cache_sampled.dfy`** (`SampledCacheKey`). The hash object is a class fed
  step by step, and the key is the digest of an explicit byte stream. The
  session settings are a class.
- **`cache_prefix.dfy`** (`PrefixCacheKey`). This is the prefix-hash key of
  the second demo. It includes the settings helpers, `clear_cache`, and the
  page's get-or-compute cache lookup.
- **`zip_plan.dfy`** (`ZipPlan`). The archive is a class whose entries are
  written in order by the chunk loop. The loop is proved equal to an entry
  plan.

## Model

| member | source | states |
|---|---|---|
| Credentials.CredentialPool.constructor | sources/core/stt_llm.py:22-26 | the key list is fixed at load time and the cursor starts inside it |
| SttLlm.LoadClient | sources/core/stt_llm.py:21-25 | the single-file client holds two keys and starts on the first |
| AudioUnderstanding.LoadClient | sources/core/audio_understanding.py:15-19 | the multi-file client holds four keys and starts on the second |
| Credentials.CredentialPool.ChangeApiKey | sources/core/stt_llm.py:45-53 | the cursor moves to `(index + 1) % len(keys)`, which is the circular successor, and stays in range |
| Credentials.CredentialPool.CurrentKey | sources/core/stt_llm.py:26 | the client's key is one of the configured keys |
| Credentials.NextIsSuccessorMod | sources/core/stt_llm.py:51 | the circular step `Next` equals `(k + 1) % count` |
| Credentials.Advance | sources/core/audio_understanding.py:16-17 | a cursor advanced any number of times stays below the key count |
| Strings.Strip | sources/core/text_aligner.py:59 | the stripped text is the input with its leading whitespace, counted by `LeadingSpaces`, and its trailing whitespace cut off, and it has no whitespace at either end |
| Strings.RandomString | sources/core/stt_llm.py:86-96 | `generate_random_string(length)` gives `length` characters, each a letter or a digit |
| Strings.BaseName | sources/core/audio_understanding.py:195 | `os.path.basename` is a suffix of the path that holds no `/` |
| Strings.JoinPath | sources/core/text_aligner.py:95 | `os.path.join(folder, name)` ends with the name |
| Strings.JoinSplitRoundTrip | sources/core/audio_processor.py:96 | splitting a newline join gives its parts back when no part holds a newline |
| Strings.LowerIdempotent | sources/core/stt_llm.py:241 | lowering a lowered message changes nothing |
| Strings.Utf8Append | sources/demo/utils/cache_utils.py:97-100 | feeding two UTF-8 encodings in turn feeds the encoding of their concatenation |
| SplitAudio.Kept | sources/core/split_audio.py:86-89 | every kept chunk is an input chunk at least `min_segment_length` long |
| SplitAudio.KeptComplete | sources/core/split_audio.py:86-89 | no chunk of at least `min_segment_length` is dropped |
| SplitAudio.KeptSingle | sources/core/split_audio.py:86-89 | a single chunk is kept exactly when it is long enough |
| SplitAudio.KeptAppend | sources/core/split_audio.py:86-89 | the filter runs chunk by chunk: filtering a concatenation concatenates the filtered parts, so the kept chunks keep their input order |
| SplitAudio.SegmentsConcat | sources/core/split_audio.py:82-115 | the segments played back to back are the kept chunks played back to back: nothing kept is lost, duplicated or reordered |
| SplitAudio.SegmentsMin | sources/core/split_audio.py:88-109 | every returned segment lasts at least `min_segment_length` |
| SplitAudio.SegmentsBound | sources/core/split_audio.py:92-106 | with a non-zero bound, a segment is within it, or it is a single input chunk that was longer than the bound on its own |
| SplitAudio.SegmentsGreedy | sources/core/split_audio.py:92-106 | with a bound, no two neighbouring segments would fit together in one |
| SplitAudio.SegmentsUnbounded | sources/core/split_audio.py:92-106 | with `max_segment_length` None or 0, all kept speech is one segment, and no kept chunk means no segment |
| SplitAudio.SplitAudioOnSilence | sources/core/split_audio.py:44-115 | a wrong argument type raises ValueError; a decoding that raises is raised; otherwise the loop returns exactly the greedy segments |
| SplitAudio.SavedPath | sources/core/split_audio.py:139 | the saved path of a segment ends in `.wav` |
| SplitAudio.SaveAudioChunks | sources/core/split_audio.py:117-150 | one path per segment, in order, numbered from 1 under the output folder |
| SplitAudio.ProcessAudioFile | sources/core/split_audio.py:152-223 | a wrong type raises ValueError; a failed decoding in the silence detection is raised; two silences or fewer return the input uncut (a path is read into a buffer unless saving, and a failed read is raised); otherwise a failed second decoding is raised, or there is one piece per greedy segment, in order, saved under the given folder or else the temporary one |
| SttLlm.Find | sources/core/stt_llm.py:71 | `find` gives the first index of the character, and -1 exactly when it is absent |
| SttLlm.RFind | sources/core/stt_llm.py:72 | `rfind` gives the last index of the character, and -1 exactly when it is absent |
| SttLlm.Slice | sources/core/stt_llm.py:77 | a slice with crossed bounds is empty; otherwise its length is the distance between the bounds |
| SttLlm.ParseResponse | sources/core/stt_llm.py:56-83 | every failure is a ValueError with the parse-failure prefix, and a reply without `[` or without `]` fails with the "no JSON found" message |
| SttLlm.ParseResponseEmbedded | sources/core/stt_llm.py:71-78 | a JSON array surrounded by chatter with no other bracket is decoded exactly, and a decoder error is wrapped as ValueError |
| SttLlm.ParseResponseCrossed | sources/core/stt_llm.py:71-78 | when the last `]` comes before the first `[`, the empty string is what gets decoded |
| SttLlm.NormalizedMimeType | sources/core/stt_llm.py:99-145 | a detected `audio/` type wins, with its aliases folded; the result is an `audio/` type exactly when the detected type, the guessed type or the extension table gives one; otherwise the detected type is returned unchanged |
| SttLlm.MimeIgnoresCase | sources/core/stt_llm.py:135-142 | the extension rule ignores the case of the file name |
| SttLlm.MimeAliasIdempotent | sources/core/stt_llm.py:119-128 | normalising an already normalised content type changes nothing |
| SttLlm.GuessedTypeNotFolded | sources/core/stt_llm.py:126-132 | an alias such as `audio/x-wav` guessed from the name is passed on unfolded |
| SttLlm.Classify | sources/core/stt_llm.py:241-256 | an error is a rate limit exactly when its lowered message contains "rate limit" or "quota" |
| SttLlm.Cleanup | sources/core/stt_llm.py:302-320 | the `finally` clause first tries to delete the last upload, then always lists the files; it only deletes and lists, whether those calls succeed or raise |
| SttLlm.RecoverOutcome | sources/core/stt_llm.py:240-297 | a rate limit or a failure with attempts left goes on to the next attempt; an overload on the last attempt raises `max_retries`; only an unclassified failure on the last attempt is raised |
| SttLlm.RateLimitKey | sources/core/stt_llm.py:245-251 | a rate limit moves the key cursor one step; no other branch moves it |
| SttLlm.AttemptsUploads | sources/core/stt_llm.py:207-238 | the loop only appends events and makes one upload per attempt; when no attempt returns, every attempt in range is made |
| SttLlm.AttemptsKey | sources/core/stt_llm.py:245-250 | the cursor the loop leaves is the start cursor advanced once per logged rotation |
| SttLlm.AttemptsFallbacks | sources/core/stt_llm.py:266-283 | the "-lite"-less fallback call happens at most once, and only for a "-lite" model |
| SttLlm.AttemptsOutcome | sources/core/stt_llm.py:207-297 | the loop ends exhausted (with `max_retries` raised at most once), with an unclassified failure of the last attempt, or with an answer the service gave |
| SttLlm.PrepareLog | sources/core/stt_llm.py:209-216 | an attempt first deletes the previous upload: it leaves the server when the deletion succeeds and is recorded as failed when it raises; then one upload is made |
| SttLlm.PendingAttempt | sources/core/stt_llm.py:209-222 | what the call has left on the server is at most the current handle and files whose deletion raised; only a raised deletion adds to those |
| SttLlm.PendingAttempts | sources/core/stt_llm.py:207-222 | over the loop the same bound holds, and no failure is recorded when no deletion before an upload raises |
| SttLlm.CleanupClears | sources/core/stt_llm.py:302-320 | after `finally`, an upload of the call is left on the server only if its deletion raised; no upload, rotation or fallback is counted |
| SttLlm.CleanupNoFailure | sources/core/stt_llm.py:302-320 | when no deletion raises, `finally` records no failure, whatever the listing does |
| SttLlm.FirstFailure | sources/core/stt_llm.py:314-320 | the entry where the listing loop stops: every deletion before it succeeds, and the one there raises unless the listing is exhausted |
| SttLlm.DeletedRun | sources/core/stt_llm.py:315-318 | one successful deletion per name, in order |
| SttLlm.LeftoversStop | sources/core/stt_llm.py:314-320 | the listing loop deletes the entries in order up to the first deletion that raises, records that failure and attempts no later entry; when every deletion succeeds, a raising pager ends it |
| SttLlm.LeftoversNoFailure | sources/core/stt_llm.py:314-320 | when no deletion of the listing raises, the loop records no failed deletion |
| SttLlm.RunLog | sources/core/stt_llm.py:207-297 | at most one upload per attempt in `range(n)`, and exactly one per attempt when no attempt returns or raises; the cursor tracks the rotations; at most one fallback call; what is left on the server is at most the last upload and files whose deletion raised |
| SttLlm.RunOutcome | sources/core/stt_llm.py:207-300 | with no answer, `max_retries` reads `n`, or `n + 1` after an overload on the last attempt; a raised error is unclassified; a returned answer is one the service gave |
| SttLlm.TranscribeFacts | sources/core/stt_llm.py:180-322 | an exhausted call raises the RuntimeError naming `max_retries` after one upload per attempt; the cursor tracks the rotations; after `finally` an upload of the call is left on the server only if its deletion raised, so none is left when no deletion raises |
| SttLlm.RateLimitedAttempt | sources/core/stt_llm.py:245-251 | an attempt whose upload hits a rate limit goes on to the next after one rotation |
| SttLlm.AnsweredAttempt | sources/core/stt_llm.py:216-235 | an attempt whose upload succeeds and whose reply parses returns that reply, rotating nothing |
| SttLlm.AttemptsRateLimitedThenAnswered | sources/core/stt_llm.py:207-251 | when attempts `a` to `k - 1` hit rate limits at upload and attempt `k` gets a reply that parses, the loop returns that reply after `k - a` rotations |
| SttLlm.TranscribeRateLimitedThenAnswered | sources/core/stt_llm.py:180-300 | the whole call returns that reply, with the key rotated once per rate-limited attempt |
| SttLlm.AttemptBudget | sources/core/stt_llm.py:252-287 | `max_retries` moves only on the last attempt, by one, when that attempt raises an overload the fallback does not answer |
| SttLlm.RunBudget | sources/core/stt_llm.py:207-300 | the exhausted loop names `n + 1` exactly when it reached its last attempt and that attempt raised an overload the fallback did not answer; otherwise it names `n` |
| SttLlm.TranscribeNoAttempt | sources/core/stt_llm.py:207-300 | with `max_retries <= 0` nothing is uploaded and the RuntimeError is raised |
| SttLlm.AllRateLimited | sources/core/stt_llm.py:245-251 | when every attempt is rate limited, each attempt rotates the key once and no attempt is added |
| SttLlm.AllOverloaded | sources/core/stt_llm.py:252-287 | when every attempt reports an overload of a model without "-lite", `n` uploads are made and the loop leaves `max_retries == n + 1` |
| SttLlm.TranscribeAllOverloaded | sources/core/stt_llm.py:207-300 | `max_retries += 1` adds no attempt: `n` uploads are made and the error names `n + 1` |
| SttLlm.TranscribeAllRateLimited | sources/core/stt_llm.py:245-300 | under constant rate limits the key rotates once per attempt and the error names `n` |
| SttLlm.Source | sources/core/stt_llm.py:172-199 | only a path or a BytesIO is accepted, and anything else raises the unsupported-type ValueError; a path is read, and what the read raises is raised, otherwise it is named by its base name; a BytesIO copy keeps the bytes and is named `audio_` + 20 letters or digits + `.wav` |
| SttLlm.HandleFailure | sources/core/stt_llm.py:240-297 | the `except` block leaves the loop state the specification's `Recover` gives |
| SttLlm.TryAttempt | sources/core/stt_llm.py:208-297 | one attempt leaves the loop state the specification's `Attempt` gives |
| SttLlm.RetryLoop | sources/core/stt_llm.py:207-297 | the `for` loop leaves the state `Run` gives, over the fixed `range(max_retries)` |
| SttLlm.FinallyCleanup | sources/core/stt_llm.py:302-320 | the `finally` block, with its early exit from the listing loop, appends exactly the events `Cleanup` gives |
| SttLlm.TranscriptUnreadable | sources/core/stt_llm.py:180-322 | a path that cannot be read raises its error inside the `try`: nothing is uploaded, the key does not move, nothing of the call is left on the server, and `finally` still lists the files |
| SttLlm.TranscriptUntyped | sources/core/stt_llm.py:180-322 | python-magic's detection that raises on the data just read ends the call the same way: its error is returned, nothing is uploaded, the key does not move, nothing of the call is left on the server, and `finally` still lists the files |
| SttLlm.TranscriptAudio | sources/core/stt_llm.py:148-322 | the whole call returns, logs and leaves the cursor exactly as `TranscriptAudioSpec` says, so every lemma above applies to it |
| AudioProcessor.TextValues | sources/core/audio_processor.py:91-94 | at most one value is picked per record |
| AudioProcessor.TextValuesAppend | sources/core/audio_processor.py:92-94 | the values picked from `a + b` are those of `a` followed by those of `b` |
| AudioProcessor.TextValuesSingle | sources/core/audio_processor.py:93-94 | a record contributes its `text` if it has one and nothing otherwise |
| AudioProcessor.Strs | sources/core/audio_processor.py:96 | the values are all strings, or the index of the first one that is not |
| AudioProcessor.ExtractSplitsBack | sources/core/audio_processor.py:81-98 | splitting the transcript on newlines gives the picked texts back, in order, when none holds a newline |
| AudioProcessor.ExtractEmpty | sources/core/audio_processor.py:91-98 | the transcript is empty exactly when no record has a `text` or the only one is "" |
| AudioProcessor.ExtractTypeError | sources/core/audio_processor.py:96 | a `text` that is not a string makes the join raise a TypeError |
| AudioProcessor.CombineTranscriptionWithAlignment | sources/core/audio_processor.py:138-168 | the result is the first `min(len(t), len(a))` dictionaries; each caller dictionary holds what the in-place updates, aliasing included, give it; the list is unchanged |
| AudioProcessor.UpdatedAbsent | sources/core/audio_processor.py:164-165 | a dictionary at no merged position is not changed |
| AudioProcessor.UpdatedOnce | sources/core/audio_processor.py:164-165 | a dictionary at exactly one position receives exactly that update |
| AudioProcessor.CombineDistinct | sources/core/audio_processor.py:155-168 | with no dictionary repeated, the caller's dictionaries end up holding the positional value merge |
| AudioProcessor.CombineAliased | sources/core/audio_processor.py:155-165 | the same dictionary at positions 0 and 1 receives both updates, and both result positions show it |
| AudioProcessor.MergedKeys | sources/core/audio_processor.py:158-168 | the merge has length `min` of the two; each record has the keys of both, and the aligned values win, `text` included |
| AudioProcessor.TranscribeAudio | sources/core/audio_processor.py:53-79 | a client failure is re-raised as a RuntimeError carrying its message; a success is passed through |
| AudioProcessor.AlignAudioWithText | sources/core/audio_processor.py:100-136 | a cutter failure is re-raised as a ValueError carrying its message |
| AudioProcessor.NewDicts | sources/core/audio_processor.py:74 | the decoded records are new, distinct dictionary objects holding the given contents |
| AudioProcessor.ProcessAudioWithAlignment | sources/core/audio_processor.py:170-268 | the pipeline returns exactly what `ProcessSpec` says and leaves the cursor it says |
| AudioProcessor.ProcessRejects | sources/core/audio_processor.py:196-201 | a wrong audio type, or a `save_folder` that is neither None nor a string, raises ValueError before any work |
| AudioProcessor.PreparedInput | sources/core/audio_processor.py:203-232 | later stages see the mono buffer, or the input (a BytesIO as its unnamed copy) when mono conversion fails |
| AudioProcessor.ProcessTranscribeFailure | sources/core/audio_processor.py:77-79 | a failed transcription raises a RuntimeError with the client's message, whatever the aligner would do |
| AudioProcessor.ProcessEmptyText | sources/core/audio_processor.py:245-248 | an empty transcript returns the transcription results without calling the aligner |
| AudioProcessor.ProcessAlignFailure | sources/core/audio_processor.py:134-136 | a failed alignment raises a ValueError with the cutter's message |
| AudioProcessor.ProcessMerged | sources/core/audio_processor.py:256-268 | when every stage succeeds, the result is the positional merge with the chunk's keys winning |
| TextAligner.AlignedTextLines | sources/core/text_aligner.py:36-37 | the joined lines can be split back when none holds a newline |
| TextAligner.LoadAudio | sources/core/text_aligner.py:115-136 | a path, a buffer or bytes is decoded; anything else raises ValueError |
| TextAligner.Cut | sources/core/text_aligner.py:62 | `audio[start:end]` clamps both bounds and is empty when the end comes first; it is a contiguous part of the audio |
| TextAligner.PaddedShape | sources/core/text_aligner.py:64-71 | the chunk is `leading` ms of silence, the cut unchanged, then `trailing` ms of silence, each only when positive |
| TextAligner.RandomName | sources/core/text_aligner.py:74-76 | a name is ten characters from `[a-z0-9]` |
| TextAligner.SidecarOfChunk | sources/core/text_aligner.py:99 | the text file is named like the chunk with `.txt` in place of `.wav` |
| TextAligner.ChunksShape | sources/core/text_aligner.py:55-112 | one record per segment in order: its text is the stripped segment text, its file name is ten `[a-z0-9]` characters and `.wav`; in memory it holds the padded cut, saved it holds the path instead |
| TextAligner.ChunksFailure | sources/core/text_aligner.py:43-48 | a failed alignment or a failed load is what the call raises |
| TextAligner.CutChunks | sources/core/text_aligner.py:54-79 | the loop returns exactly the in-memory records |
| TextAligner.SaveChunks | sources/core/text_aligner.py:82-109 | the save loop returns `{filename, text, full_path}` per chunk, with no audio |
| TextAligner.GetAudioChunks | sources/core/text_aligner.py:15-112 | the call returns exactly what `GetAudioChunksSpec` says |
| AudioUnderstanding.Tagged | sources/core/audio_understanding.py:229-232 | tagging keeps the number of results |
| AudioUnderstanding.TaggedRules | sources/core/audio_understanding.py:229-232 | with a name list, every result gets a Filename; an existing one is kept; a missing one is the name at its position, or the last name; no other key changes; without names nothing changes |
| AudioUnderstanding.UploadsShape | sources/core/audio_understanding.py:193-212 | a successful upload loop uploaded every file once, in order, with its detected type and its upload name |
| AudioUnderstanding.UploadsStopped | sources/core/audio_understanding.py:193-209 | once a prefix fails, the loop fails the same way and uploads nothing more |
| AudioUnderstanding.UploadsUnsupported | sources/core/audio_understanding.py:208-209 | the first element that is not a path or a BytesIO raises "Unsupported file type" after the files before it were uploaded |
| AudioUnderstanding.UploadsSucceed | sources/core/audio_understanding.py:193-212 | paths and BytesIO objects whose type detection and upload succeed give a successful loop |
| AudioUnderstanding.UploadsMimeRaises | sources/core/audio_understanding.py:193-212 | the first BytesIO whose type detection raises ends the loop with that exception, after the files before it were uploaded and before its own upload |
| AudioUnderstanding.AttemptsOtherError | sources/core/audio_understanding.py:246-249 | an error that is not a rate limit is raised at once, after one call and no rotation |
| AudioUnderstanding.AttemptsAllRateLimited | sources/core/audio_understanding.py:215-252 | when every attempt is rate limited, the RuntimeError naming `max_retries` is raised after one rotation per attempt |
| AudioUnderstanding.AttemptsRateLimitedThenAnswered | sources/core/audio_understanding.py:215-249 | when `m` attempts in a row hit a rate limit, each with the key the last rotation left, and the next answers, the call returns that answer tagged with the file names, after `m` rotations and `m + 1` calls |
| AudioUnderstanding.AttemptsErrors | sources/core/audio_understanding.py:236-252 | every failure is the final RuntimeError or an error that is not a rate limit |
| AudioUnderstanding.AttemptsKey | sources/core/audio_understanding.py:240-245 | the loop only appends events and leaves the cursor advanced once per rotation, modulo 4 |
| AudioUnderstanding.AttemptsShape | sources/core/audio_understanding.py:215-249 | one attempt either ends the loop after one call with the cursor unchanged, or rotates, waits and hands over to the next attempt |
| AudioUnderstanding.AttemptsTagsAll | sources/core/audio_understanding.py:229-234 | with at least one file name, every result of a successful loop carries a Filename |
| AudioUnderstanding.NonSplitSingle | sources/core/audio_understanding.py:184-234 | a single path or BytesIO is uploaded alone, and every result carries a Filename; a BytesIO whose type detection raises ends the call with that exception, with nothing uploaded and no model called |
| AudioUnderstanding.NonSplitRejects | sources/core/audio_understanding.py:184-209 | a non-empty `bytes` object raises "Unsupported file type" before any upload; another non-list object raises TypeError |
| AudioUnderstanding.SplitOneWhole | sources/core/audio_understanding.py:156-168 | a file that is decoded (and read back, when it is an uncut path) and that splitting leaves in one piece or none is transcribed whole |
| AudioUnderstanding.SplitOneRaises | sources/core/audio_understanding.py:156-166 | a decoding that raises, in the silence detection or in the split, or a path that cannot be read back, ends the call with that error before any upload or model call |
| AudioUnderstanding.PartTagged | sources/core/audio_understanding.py:175-176 | tagging a part keeps the number of items |
| AudioUnderstanding.PartTaggedRules | sources/core/audio_understanding.py:171-177 | every item of part `i` gets `Filename = "{original}_part{i+1}"`, overwriting any existing one; other keys are kept |
| AudioUnderstanding.PartsNamed | sources/core/audio_understanding.py:171-179 | every item of a successful split carries the Filename `"{original}_part{j+1}"` of some part `j` of the file |
| AudioUnderstanding.PartsStopped | sources/core/audio_understanding.py:172-177 | once a part fails, the loop fails the same way and transcribes nothing more |
| AudioUnderstanding.SplitManyAppend | sources/core/audio_understanding.py:127-141 | split mode over `xs + ys` gives the results for `xs` followed by those for `ys` |
| AudioUnderstanding.SequencedStopped | sources/core/audio_understanding.py:127-141 | once a file of split mode fails, the run over all files fails the same way and goes no further |
| AudioUnderstanding.SplitManySingle | sources/core/audio_understanding.py:127-144 | a list of one file in split mode is that file split |
| AudioUnderstanding.WithFallback | sources/core/audio_understanding.py:275-283 | naming keeps the number of items |
| AudioUnderstanding.WithFallbackRules | sources/core/audio_understanding.py:275-283 | every item ends up with a Filename; an existing one is kept with the whole item; a missing one is the path's base name, else the `.name` base name, else `audio_part{i+1}`; other keys are kept |
| AudioUnderstanding.FallbackUnused | sources/core/audio_understanding.py:273-283 | the fallback never applies to a path or a BytesIO chunk, because the unsplit call already tagged every item |
| AudioUnderstanding.SplitAudioSkipsUnsupported | sources/core/audio_understanding.py:271-288 | chunks that cannot be transcribed are skipped without a trace |
| AudioUnderstanding.UploadFiles | sources/core/audio_understanding.py:193-212 | the upload loop returns and logs what `Uploads` says |
| AudioUnderstanding.TagFilenames | sources/core/audio_understanding.py:229-232 | the naming loop returns `Tagged` |
| AudioUnderstanding.RetryLoop | sources/core/audio_understanding.py:215-252 | the retry loop returns, logs and moves the cursor as `Attempts` says |
| AudioUnderstanding.TranscribeUnsplit | sources/core/audio_understanding.py:182-252 | the unsplit call behaves as `NonSplit` |
| AudioUnderstanding.NamePart | sources/core/audio_understanding.py:175-176 | the item loop returns `PartTagged` |
| AudioUnderstanding.TranscribeParts | sources/core/audio_understanding.py:171-179 | the part loop behaves as `Parts` |
| AudioUnderstanding.TranscribeSplitOne | sources/core/audio_understanding.py:144-179 | split mode for one file behaves as `SplitOne`, decoding and read errors included |
| AudioUnderstanding.TranscribeSplitMany | sources/core/audio_understanding.py:127-141 | split mode over several files behaves as `SplitMany` |
| AudioUnderstanding.TranscriptAudios | sources/core/audio_understanding.py:92-252 | `transcript_audios` behaves as `TranscriptAudiosSpec` |
| AudioUnderstanding.NameMissing | sources/core/audio_understanding.py:275-283 | the item loop returns `WithFallback` |
| AudioUnderstanding.TranscriptSplitAudio | sources/core/audio_understanding.py:255-288 | `transcript_split_audio` behaves as `SplitAudioResults`, skipping failed chunks |
| SampledCacheKey.Slice | sources/demo/utils/cache_utils.py:84-91 | a byte slice clamps its end to the length; it holds the bytes from `lo` on, in order; a start at or past the end, or an inverted range, gives an empty slice |
| SampledCacheKey.FeedWindows | sources/demo/utils/cache_utils.py:89-91 | the window loop feeds the ten windows in order, after what was fed before |
| SampledCacheKey.GenerateCacheKey | sources/demo/utils/cache_utils.py:57-102 | the key is the digest of the sampled stream, so equal streams give equal keys |
| SampledCacheKey.WindowInside | sources/demo/utils/cache_utils.py:87-91 | every middle window starts after the 512 KiB head and ends inside the buffer |
| SampledCacheKey.WindowUnclamped | sources/demo/utils/cache_utils.py:90-91 | every window is a full 1024 bytes |
| SampledCacheKey.MiddleWindowsLength | sources/demo/utils/cache_utils.py:89-91 | the first `k` windows hold `k` KiB |
| SampledCacheKey.FeedLength | sources/demo/utils/cache_utils.py:81-94 | the threshold is strict: up to 1 MiB is fed whole, and more feeds 1 MiB plus ten KiB |
| SampledCacheKey.WindowsAgree | sources/demo/utils/cache_utils.py:87-91 | buffers of equal length that agree on the sampled bytes feed the same windows |
| SampledCacheKey.UnsampledIrrelevant | sources/demo/utils/cache_utils.py:82-91 | bytes outside the head, the tail and the windows of a large buffer cannot change the key |
| SampledCacheKey.PaddingCollision | sources/demo/utils/cache_utils.py:97-100 | paddings (1, 10) and (11, 0) feed the same bytes and give the same key |
| SampledCacheKey.Defaults | sources/demo/utils/cache_utils.py:28-34 | the defaults hold exactly the five settings |
| SampledCacheKey.SessionState.GetCurrentSettings | sources/demo/utils/cache_utils.py:20-35 | the defaults are installed only when absent, and the stored dict is returned |
| SampledCacheKey.SessionState.UpdateSettings | sources/demo/utils/cache_utils.py:37-55 | the loop writes every given key over the current settings and stores the result |
| SampledCacheKey.CurrentInstalledOnce | sources/demo/utils/cache_utils.py:27-35 | a second call installs nothing, and the first gives the defaults |
| SampledCacheKey.UpdateKeepsOthers | sources/demo/utils/cache_utils.py:47-55 | an update overwrites exactly the given keys and keeps every other setting |
| PrefixCacheKey.Prefix | demo/utils/cache_utils.py:24 | the hashed prefix is at most 1 MiB and is the start of the buffer |
| PrefixCacheKey.KeyIgnoresTail | demo/utils/cache_utils.py:24 | bytes after the first MiB never change the key |
| PrefixCacheKey.KeyDependsOnPrefix | demo/utils/cache_utils.py:24-31 | buffers with the same first MiB and the same parameters give the same key |
| PrefixCacheKey.NoUnderscoreInInt | demo/utils/cache_utils.py:27 | a rendered integer holds no underscore |
| PrefixCacheKey.CombinedIsJoin | demo/utils/cache_utils.py:27-28 | the combined string is the five fields joined by underscores |
| PrefixCacheKey.CombinedFields | demo/utils/cache_utils.py:27-28 | when no field holds an underscore, splitting the combined string gives the five fields back |
| PrefixCacheKey.PaddingsDistinguished | demo/utils/cache_utils.py:27-28 | paddings (1, 10) and (11, 0) give different combined strings |
| PrefixCacheKey.DefaultPaddings | demo/utils/cache_utils.py:9-28 | called without paddings, `generate_cache_key` hashes the combined string with both paddings 0, which ends in `_0_0` |
| PrefixCacheKey.Defaults | demo/utils/cache_utils.py:43-49 | the defaults hold exactly the five settings |
| PrefixCacheKey.AppSession.GetCurrentSettings | demo/utils/cache_utils.py:33-51 | the defaults are installed under "app_settings" once, and the stored dict is returned |
| PrefixCacheKey.AppSession.UpdateSettings | demo/utils/cache_utils.py:53-62 | the given keys are merged over the current settings |
| PrefixCacheKey.AppSession.ClearCache | demo/utils/cache_utils.py:64-69 | an existing cache is emptied and True is returned; otherwise nothing changes and False is returned |
| PrefixCacheKey.AppSession.ProcessWithCache | demo/pages/01_TTS_Labeling.py:490-597 | the lookup returns, reports and stores exactly as `Lookup` says for the page's key |
| PrefixCacheKey.SettingsRules | demo/utils/cache_utils.py:41-62 | a second call returns what the first stored, and an update keeps every key it does not name |
| PrefixCacheKey.ClearRules | demo/utils/cache_utils.py:64-69 | `clear_cache` reports whether a cache existed, and a second clear succeeds again |
| PrefixCacheKey.HitServesStored | demo/pages/01_TTS_Labeling.py:503-528 | a stored result is served whatever processing would give now, and the cache is unchanged |
| PrefixCacheKey.SecondLookupHits | demo/pages/01_TTS_Labeling.py:514-597 | after a successful miss the same key is served from the cache |
| PrefixCacheKey.ClearedMisses | demo/utils/cache_utils.py:64-69 | after a clear every lookup is a miss |
| PrefixCacheKey.CacheOffUntouched | demo/pages/01_TTS_Labeling.py:503-572 | with caching off, the cache is not touched |
| ZipPlan.LastIndex | sources/demo/utils/zip_utils.py:38 | the last occurrence of a character, or -1 when there is none |
| ZipPlan.SplitExt | sources/demo/utils/zip_utils.py:38 | `splitext` splits the name into two parts that concatenate back to it |
| ZipPlan.SplitExtShape | sources/demo/utils/zip_utils.py:38 | the extension is empty, or a dot followed by no dot and no slash |
| ZipPlan.SplitExtRoundTrip | sources/demo/utils/zip_utils.py:38 | splitting `base + "." + ext` gives `base` back when the last component of `base` is not all dots |
| ZipPlan.DefaultBase | sources/demo/utils/zip_utils.py:37-38 | the default name `chunk_{i}.wav` gives the base `chunk_{i}` |
| ZipPlan.MetadataOf | sources/demo/utils/zip_utils.py:55-60 | one copy per chunk, in order, with exactly the `audio` key removed and the other values unchanged |
| ZipPlan.ZipArchive.WriteStr | sources/demo/utils/zip_utils.py:46-63 | `writestr` appends one entry |
| ZipPlan.WriteChunk | sources/demo/utils/zip_utils.py:36-50 | one chunk's writes are the entries `ChunkEntries` plans, or the error it plans |
| ZipPlan.StripAudio | sources/demo/utils/zip_utils.py:55-60 | the metadata loop returns `MetadataOf` |
| ZipPlan.CreateZipFromAudioChunks | sources/demo/utils/zip_utils.py:13-67 | the archive holds exactly the planned entries, in order, or the call raises the planned error |
| ZipPlan.ChunksEntriesPrefix | sources/demo/utils/zip_utils.py:35-50 | the entries of earlier chunks come first |
| ZipPlan.ChunkEntriesRules | sources/demo/utils/zip_utils.py:37-50 | `{base}.wav` is written exactly when audio is asked for and present, and `{base}.txt` with the text exactly when text is asked for and present, audio first; wrong value types raise |
| ZipPlan.ChunkEntriesNamed | sources/demo/utils/zip_utils.py:46-50 | one chunk writes only `.wav` and `.txt` entries |
| ZipPlan.ChunksEntriesNamed | sources/demo/utils/zip_utils.py:35-50 | the chunk loop writes only `.wav` and `.txt` entries |
| ZipPlan.MetadataLast | sources/demo/utils/zip_utils.py:53-63 | `metadata.json` appears exactly when asked for, as the last entry holding the stripped copies, and no chunk entry has that name |

## Left out

- Only POSIX paths are modelled (`/` separators) for `os.path.basename`, `os.path.join` and `os.path.splitext`.
- Audio is integer milliseconds. The aligner's float seconds and `int(x * 1000)` are outside the model, so segments arrive as integer-ms triples. Sample values, channels and the WAV container are not modelled.
- `min_silence_len`, `silence_thresh` and `keep_silence` only reach pydub. The model takes what pydub would return: the speech chunks and the number of detected silences.
- Remote calls are oracles. This covers uploads, `generate_content`, the file listing and deletions. `time.sleep` is recorded as a wait event. `print` and logging are left out.
- `json.loads`, MD5, python-magic, `mimetypes`, pydub decoding/export, mono conversion and the stable-whisper aligner are oracles. The decoded JSON is a list of records whose values are strings or clips; other JSON shapes are not modelled.
- Random names are built from the picks of `random.choices`, which are parameters. In `AudioUnderstanding` the picks are a function of the argument, so two equal unnamed buffers in one call are given the same name, where the source draws afresh each time. `generate_random_string` keeps its length and its letters-and-digits alphabet, and the aligner's chunk names keep theirs; which characters are drawn is not modelled.
- File-system writes are left out: exports, the `.txt` sidecars, `os.makedirs` and `tempfile.mkdtemp`. What is modelled is the names and paths they produce.
- Concurrency and the module-global `client` object are left out. The key cursor is one shared `CredentialPool` object.
- Exception messages that Python builds itself (`TypeError` in `str.join`, `AttributeError` on `.export`, the JSON encoder's `TypeError`) are modelled by class, with an approximate message.
- `transcript_audios` calls itself. The model unrolls these calls into nested methods: a list, then each single file, then an unsplit call per part. A file argument here is never itself a list. A list nested inside the list, which the source would recurse into again, is not modelled.
- `save_transcription_json`, `create_zip_from_directory`, `save_audio_chunks_to_temp_dir`, `render_cache_ui` and the rest of the Streamlit pages are left out, because they are I/O or UI. `demo/utils/zip_utils.py` is not part of this model.
- The copy of `generate_cache_key` in `sources/demo/tts_labeling.py` is not modelled separately. It repeats the one in `sources/demo/utils/cache_utils.py`.
- The page's processing step is a parameter of `ProcessWithCache`. It is the outcome of transcription or of the full pipeline, and its own failures are not modelled.
- ZipPlan.CreateZipFromAudioChunks: the entries record their names and what they were made from. The deflate-compressed bytes, the WAV export and the JSON text (`indent=2`, `ensure_ascii=False`) are not modelled.
- `api_key` (the module both clients import their key list from) is not part of this model. The key list is a parameter of the `CredentialPool` constructor.
- SplitAudio.ProcessAudioFile: the two decodings of a BytesIO are independent outcomes, each of which may raise. `split_audio_on_silence` decodes the stream again after `detect_silence_intervals` read it, with no `seek(0)` in between. What pydub reads from a stream that was already read is not modelled.
- SplitAudio.ProcessAudioFile, SttLlm.Source and TextAligner.LoadAudio: a BytesIO stands for its whole buffer. Its read position is not modelled, so a BytesIO that was partly read before the call is treated as if it were rewound. `file.read()` and pydub's reads would see only the bytes after the position.
- SttLlm.TranscriptAudio, AudioUnderstanding.TranscriptAudios, SplitAudio.SplitAudioOnSilence, SplitAudio.ProcessAudioFile: default arguments are not modelled; callers pass every argument. The defaults are `max_retries=5` and `model="gemini-2.0-flash"` for `transcript_audio`. For `transcript_audios` they are `max_retries=3`, `split_audio=False`, `min_segment_length=2000` and `max_segment_length=30000`. `process_audio_file` has `min_segment_length=2000`, `max_segment_length=30000` and `save_to_disk=False`. `split_audio_on_silence` defaults to `max_segment_length=10` ms, but `process_audio_file` always passes its own value.
