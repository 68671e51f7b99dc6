/** The batch transcriber (sources/core/audio_understanding.py): upload one
    or several audio files, ask the remote model for a transcript of all of
    them, tag each result with a file name, and retry only on rate limits.
    In split mode each file is first cut on silence and its parts are
    transcribed one by one.

    The remote service (`client.files.upload`, `generate_content`),
    `json.loads`, python-magic, `generate_random_string` and pydub's
    silence detection, splitting and export are oracles. */
module AudioUnderstanding {
  import opened Common
  import opened Strings
  import opened Credentials
  import SttLlm
  import SplitAudio

  /** The `files` argument: one object, or a list of them. */
  datatype Files = One(file: AudioArg) | Many(items: seq<AudioArg>)

  /** The remote service and the helpers the module calls:
      `upload(file, mime)` is `client.files.upload` with the `mime_type`
      config (None for `{}`); `generate(handles, key, attempt)` is
      `generate_content` on those uploads with the key at that cursor, at
      that attempt; `loads` is `json.loads`; `magic(data)` is the outcome
      of `magic.from_buffer(data, mime=True)` on the module's `Magic()`
      instance, which may raise (python-magic's `Magic.from_buffer` takes
      no `mime` keyword, so there it raises TypeError); `picks(file)` are
      the indices `random.choices` draws when `generate_random_string(8)`
      names that argument. They are keyed by the argument's value, so two
      equal unnamed buffers in one call get the same name, where the source
      draws afresh each time; no property here depends on the names being
      distinct. */
  datatype Gemini = Gemini(
    upload: (AudioArg, Option<string>) -> SttLlm.Reply<string>,
    generate: (seq<string>, nat, nat) -> SttLlm.Reply<string>,
    loads: string -> Result<seq<Record>, string>,
    magic: seq<byte> -> SttLlm.Reply<string>,
    picks: AudioArg -> nat -> nat)

  /** What pydub tells `process_audio_file` about a file: the number of
      silences `detect_silence` finds and the chunks `split_on_silence`
      cuts, each decoding the file afresh and each possibly raising
      instead; the WAV bytes `export` writes for a segment; and a path's
      content, or what `open` raised. */
  datatype Pydub = Pydub(
    silences: AudioArg -> Result<nat, Exception>,
    chunks: AudioArg -> Result<seq<Audio>, Exception>,
    exportWav: Audio -> seq<byte>,
    readFile: string -> Result<seq<byte>, Exception>)

  /** The key cursor and the events so far. */
  datatype State = State(key: nat, log: seq<SttLlm.Event>)

  const Model: string := "gemini-2.0-flash"
  const UnsupportedType := Exception(ValueError, "Unsupported file type")
  const NotIterable := Exception(TypeError, "object is not iterable")
  const NoFirstFile := Exception(IndexError, "list index out of range")

  /** The RuntimeError raised once every attempt hit a rate limit. */
  function Exhausted(n: int): Exception {
    Exception(RuntimeError, "Không thể phiên âm sau " + IntToString(n) + " lần thử lại")
  }

  /** `change_api_key` and the one-second wait after a rate limit. */
  predicate IsRateLimit(e: Exception) {
    SttLlm.Classify(e.message) == SttLlm.RateLimited
  }

  // ---------------------------------------------------------------------
  // The non-split path

  /** What `for file in files` walks over: a single path or BytesIO is
      wrapped in a list, a list is walked as it is, a `bytes` object yields
      its byte values (none of which is a file), and any other object is
      not iterable. */
  function Elements(files: Files): Result<seq<AudioArg>, Exception> {
    match files
    case Many(items) => Success(items)
    case One(file) =>
      match file
      case PathArg(_) => Success([file])
      case BufferArg(_, _) => Success([file])
      case BytesArg(bytes) => Success(seq(|bytes|, _ => OtherArg))
      case OtherArg => Failure(NotIterable)
  }

  /** The name recorded for an uploaded file: a path's base name, a
      BytesIO's `.name` base name when it is set and non-empty, else a
      random name. */
  function UploadName(file: AudioArg, g: Gemini): string {
    match file
    case PathArg(path) => BaseName(path)
    case BufferArg(_, name) =>
      if name.Some? && name.value != "" then BaseName(name.value)
      else "audio_" + RandomString(g.picks(file), 8) + ".wav"
    case _ => ""
  }

  /** The `mime_type` config: none for a path, the detected type for a
      BytesIO, or the exception the detection raised. */
  function Mime(file: AudioArg, g: Gemini): (r: SttLlm.Reply<Option<string>>)
    ensures file.BufferArg? ==> (r.Raised? <==> g.magic(file.data).Raised?)
    ensures r.Ok? && r.value.Some? ==> file.BufferArg? && g.magic(file.data) == SttLlm.Ok(r.value.value)
    ensures !file.BufferArg? ==> r == SttLlm.Ok(None)
  {
    if file.BufferArg? then
      match g.magic(file.data)
      case Raised(e) => SttLlm.Raised(e)
      case Ok(m) => SttLlm.Ok(Some(m))
    else SttLlm.Ok(None)
  }

  /** The upload loop over `files`: the handles and the names, or the
      exception that stopped it, with the uploads logged. */
  function Uploads(g: Gemini, files: seq<AudioArg>): (Result<(seq<string>, seq<string>), Exception>, seq<SttLlm.Event>)
    decreases |files|
  {
    if files == [] then (Success(([], [])), [])
    else
      var (prev, log) := Uploads(g, files[..|files| - 1]);
      var file := files[|files| - 1];
      if prev.Failure? then (prev, log)
      else if !IsPathOrBuffer(file) then (Failure(UnsupportedType), log)
      else
        match Mime(file, g)
        case Raised(e) => (Failure(e), log)
        case Ok(config) =>
          match g.upload(file, config)
          case Raised(e) => (Failure(e), log)
          case Ok(h) => (Success((prev.value.0 + [h], prev.value.1 + [UploadName(file, g)])), log + [SttLlm.Uploaded(h)])
  }

  /** The file is a path or a BytesIO whose type detection and upload
      both succeed. */
  predicate UploadsFine(g: Gemini, file: AudioArg) {
    IsPathOrBuffer(file) && Mime(file, g).Ok? && g.upload(file, Mime(file, g).value).Ok?
  }

  /** Result `i` gets `Filename = filenames[min(i, len(filenames) - 1)]`,
      and only when it has no `Filename` yet and there are names. */
  function Tagged(results: seq<Record>, names: seq<string>): (r: seq<Record>)
    ensures |r| == |results|
  {
    seq(|results|, i requires 0 <= i < |results| =>
      if names != [] && "Filename" !in results[i]
      then results[i]["Filename" := Text(names[Min(i, |names| - 1)])]
      else results[i])
  }

  /** One `generate_content` call and the parse of its text. */
  function Generated(g: Gemini, handles: seq<string>, key: nat, a: nat): Result<seq<Record>, Exception> {
    match g.generate(handles, key, a)
    case Ok(text) => SttLlm.ParseResponse(text, g.loads)
    case Raised(e) => Failure(e)
  }

  /** The parsed reply to `generate_content` for each key index and
      attempt. */
  type Replies = (nat, nat) -> Result<seq<Record>, Exception>

  /** The replies of the Gemini client for the uploaded `handles`. */
  function RepliesOf(g: Gemini, handles: seq<string>): Replies {
    (key: nat, a: nat) => Generated(g, handles, key, a)
  }

  /** The retry loop from attempt `a` of `n`: a rate limit rotates the key,
      waits one second and moves on; any other error is raised at once. */
  function Attempts(reply: Replies, names: seq<string>, count: nat, a: nat, n: int, st: State)
    : (Result<seq<Record>, Exception>, State)
    requires count > 0
    decreases n - a
  {
    if a >= n then (Failure(Exhausted(n)), st)
    else
      var called := st.log + [SttLlm.Called(Model)];
      match reply(st.key, a)
      case Success(results) => (Success(Tagged(results, names)), State(st.key, called))
      case Failure(e) =>
        if IsRateLimit(e) then
          var k := Next(st.key, count);
          Attempts(reply, names, count, a + 1, n, State(k, called + [SttLlm.Rotated(k), SttLlm.Slept(1)]))
        else (Failure(e), State(st.key, called))
  }

  /** `transcript_audios(files, max_retries=n, split_audio=False)`. */
  function NonSplit(g: Gemini, files: Files, n: int, count: nat, st: State): (Result<seq<Record>, Exception>, State)
    requires count > 0
  {
    match Elements(files)
    case Failure(e) => (Failure(e), st)
    case Success(items) =>
      var (up, uploads) := Uploads(g, items);
      var st' := State(st.key, st.log + uploads);
      match up
      case Failure(e) => (Failure(e), st')
      case Success((handles, names)) => Attempts(RepliesOf(g, handles), names, count, 0, n, st')
  }

  // ---------------------------------------------------------------------
  // The split path

  /** `original_filename`: a path's base name, a BytesIO's `.name` base
      name when the attribute exists (even empty), else a random name. */
  function OriginalName(file: AudioArg, g: Gemini): string {
    match file
    case PathArg(path) => BaseName(path)
    case BufferArg(_, Some(name)) => BaseName(name)
    case _ => "audio_" + RandomString(g.picks(file), 8)
  }

  /** Every item of one part's result gets this `Filename`, overwriting
      any it had. */
  function PartTagged(items: seq<Record>, name: string): (r: seq<Record>)
    ensures |r| == |items|
  {
    seq(|items|, i requires 0 <= i < |items| => items[i]["Filename" := Text(name)])
  }

  /** The name of part `i` (0-based) of a file. */
  function PartName(original: string, i: nat): string {
    original + "_part" + IntToString(i + 1)
  }

  /** How one part is transcribed, from the state the previous part left. */
  type PartRun = (Audio, State) -> (Result<seq<Record>, Exception>, State)

  /** Each part is a new unnamed BytesIO over its WAV export, transcribed
      unsplit. */
  function PartRunOf(g: Gemini, exportWav: Audio -> seq<byte>, n: int, count: nat): PartRun
    requires count > 0
  {
    (seg: Audio, s: State) => NonSplit(g, One(BufferArg(exportWav(seg), None)), n, count, s)
  }

  /** The loop over the parts of one file: each part is transcribed by
      `part` and its items tagged; the first error stops the loop. */
  function Parts(part: PartRun, original: string, segs: seq<Audio>, st: State): (Result<seq<Record>, Exception>, State)
    decreases |segs|
  {
    if segs == [] then (Success([]), st)
    else
      var i := |segs| - 1;
      var (prev, st1) := Parts(part, original, segs[..i], st);
      if prev.Failure? then (prev, st1)
      else
        var (r, st2) := part(segs[i], st1);
        match r
        case Failure(e) => (Failure(e), st2)
        case Success(items) => (Success(prev.value + PartTagged(items, PartName(original, i))), st2)
  }

  /** `transcript_audios(file, split_audio=True)` for a single file: cut
      it on silence (`process_audio_file` without saving); one part or
      none means the file is transcribed whole. A decoding that raises,
      or a path `process_audio_file` cannot read back, ends the call. */
  function SplitOne(g: Gemini, p: Pydub, file: AudioArg, n: int, minLen: int, maxLen: Option<int>,
                    count: nat, st: State): (Result<seq<Record>, Exception>, State)
    requires count > 0
  {
    if !IsPathOrBuffer(file) then (Failure(SplitAudio.UnsupportedAudio), st)
    else
      match p.silences(file)
      case Failure(e) => (Failure(e), st)
      case Success(silences) =>
        if silences <= 2 then
          if file.PathArg? && p.readFile(file.path).Failure? then (Failure(p.readFile(file.path).error), st)
          else NonSplit(g, One(file), n, count, st)
        else
          match p.chunks(file)
          case Failure(e) => (Failure(e), st)
          case Success(chunks) =>
            var segs := SplitAudio.GreedySegments(chunks, minLen, maxLen);
            if |segs| <= 1 then NonSplit(g, One(file), n, count, st)
            else Parts(PartRunOf(g, p.exportWav, n, count), OriginalName(file, g), segs, st)
  }

  /** The file is decoded and, when it is not cut, read back; the greedy
      packing leaves it in at most one piece. */
  predicate Whole(p: Pydub, file: AudioArg, minLen: int, maxLen: Option<int>) {
    && p.silences(file).Success?
    && if p.silences(file).value <= 2 then !(file.PathArg? && p.readFile(file.path).Failure?)
       else p.chunks(file).Success? && |SplitAudio.GreedySegments(p.chunks(file).value, minLen, maxLen)| <= 1
  }

  /** `step` run over `files` in order, each run starting from the state
      the previous one left; the results are concatenated and the first
      error stops it. */
  function Sequenced(step: (AudioArg, State) -> (Result<seq<Record>, Exception>, State), files: seq<AudioArg>, st: State)
    : (Result<seq<Record>, Exception>, State)
    decreases |files|
  {
    if files == [] then (Success([]), st)
    else
      var (prev, st1) := Sequenced(step, files[..|files| - 1], st);
      if prev.Failure? then (prev, st1)
      else
        var (r, st2) := step(files[|files| - 1], st1);
        match r
        case Failure(e) => (Failure(e), st2)
        case Success(items) => (Success(prev.value + items), st2)
  }

  /** Split mode over a list of several files: each file on its own, the
      results concatenated in input order; the first error stops it. */
  function SplitMany(g: Gemini, p: Pydub, files: seq<AudioArg>, n: int, minLen: int, maxLen: Option<int>,
                     count: nat, st: State): (Result<seq<Record>, Exception>, State)
    requires count > 0
  {
    Sequenced(SplitStep(g, p, n, minLen, maxLen, count), files, st)
  }

  /** The body of the `for file in files` loop of split mode. */
  function SplitStep(g: Gemini, p: Pydub, n: int, minLen: int, maxLen: Option<int>, count: nat)
    : (AudioArg, State) -> (Result<seq<Record>, Exception>, State)
    requires count > 0
  {
    (file: AudioArg, s: State) => SplitOne(g, p, file, n, minLen, maxLen, count, s)
  }

  /** `transcript_audios`. */
  function TranscriptAudiosSpec(g: Gemini, p: Pydub, files: Files, n: int, split: bool, minLen: int, maxLen: Option<int>,
                                count: nat, st: State): (Result<seq<Record>, Exception>, State)
    requires count > 0
  {
    if !split then NonSplit(g, files, n, count, st)
    else
      match files
      case Many(items) =>
        if |items| > 1 then SplitMany(g, p, items, n, minLen, maxLen, count, st)
        else if items == [] then (Failure(NoFirstFile), st)
        else SplitOne(g, p, items[0], n, minLen, maxLen, count, st)
      case One(file) => SplitOne(g, p, file, n, minLen, maxLen, count, st)
  }

  // ---------------------------------------------------------------------
  // transcript_split_audio

  /** The `Filename` given to an item of chunk `i` that has none. */
  function FallbackName(chunk: AudioArg, i: nat): string {
    match chunk
    case PathArg(path) => BaseName(path)
    case BufferArg(_, Some(name)) => if name != "" then BaseName(name) else "audio_part" + IntToString(i + 1)
    case _ => "audio_part" + IntToString(i + 1)
  }

  /** Items without a `Filename` get the chunk's fallback name. */
  function WithFallback(items: seq<Record>, chunk: AudioArg, i: nat): (r: seq<Record>)
    ensures |r| == |items|
  {
    seq(|items|, k requires 0 <= k < |items| =>
      if "Filename" in items[k] then items[k] else items[k]["Filename" := Text(FallbackName(chunk, i))])
  }

  /** `transcript_split_audio`: each chunk transcribed unsplit with three
      attempts; a failing chunk is skipped. */
  function SplitAudioResults(g: Gemini, chunks: seq<AudioArg>, count: nat, st: State): (seq<Record>, State)
    requires count > 0
    decreases |chunks|
  {
    if chunks == [] then ([], st)
    else
      var i := |chunks| - 1;
      var (prev, st1) := SplitAudioResults(g, chunks[..i], count, st);
      var (r, st2) := NonSplit(g, One(chunks[i]), 3, count, st1);
      match r
      case Failure(_) => (prev, st2)
      case Success(items) => (prev + WithFallback(items, chunks[i], i), st2)
  }

  // ---------------------------------------------------------------------
  // Properties of the non-split path

  /** A successful upload loop uploaded every file once, in order: all of
      them are paths or BytesIO objects, the names are their upload names,
      and the log holds one upload per file. */
  lemma {:induction false} UploadsShape(g: Gemini, files: seq<AudioArg>)
    ensures var (r, log) := Uploads(g, files);
            r.Success? ==>
              && |r.value.0| == |files| && |r.value.1| == |files| && |log| == |files|
              && forall i :: 0 <= i < |files| ==>
                   && IsPathOrBuffer(files[i]) && Mime(files[i], g).Ok?
                   && g.upload(files[i], Mime(files[i], g).value) == SttLlm.Ok(r.value.0[i])
                   && r.value.1[i] == UploadName(files[i], g)
                   && log[i] == SttLlm.Uploaded(r.value.0[i])
    decreases |files|
  {
    if files != [] {
      UploadsShape(g, files[..|files| - 1]);
    }
  }

  /** Once the loop over a prefix has failed, the whole loop fails the
      same way and uploads nothing more. */
  lemma {:induction false} UploadsStopped(g: Gemini, files: seq<AudioArg>, k: nat)
    requires k <= |files| && Uploads(g, files[..k]).0.Failure?
    ensures Uploads(g, files) == Uploads(g, files[..k])
    decreases |files| - k
  {
    if k < |files| {
      assert files[..k + 1][..k] == files[..k];
      UploadsStopped(g, files, k + 1);
    } else {
      assert files[..k] == files;
    }
  }

  /** The first element that is neither a path nor a BytesIO raises
      "Unsupported file type", once the files before it are uploaded. */
  lemma {:induction false} UploadsUnsupported(g: Gemini, files: seq<AudioArg>, i: nat)
    requires i < |files| && !IsPathOrBuffer(files[i])
    requires forall j :: 0 <= j < i ==> UploadsFine(g, files[j])
    ensures Uploads(g, files).0 == Failure(UnsupportedType)
  {
    UploadsSucceed(g, files[..i]);
    assert files[..i + 1][..i] == files[..i];
    UploadsStopped(g, files, i + 1);
  }

  /** The first BytesIO whose type detection raises ends the loop with
      that exception, once the files before it are uploaded; it is not
      uploaded. */
  lemma {:induction false} UploadsMimeRaises(g: Gemini, files: seq<AudioArg>, i: nat)
    requires i < |files| && files[i].BufferArg? && g.magic(files[i].data).Raised?
    requires forall j :: 0 <= j < i ==> UploadsFine(g, files[j])
    ensures Uploads(g, files).0 == Failure(g.magic(files[i].data).error)
    ensures |Uploads(g, files).1| == i
  {
    UploadsSucceed(g, files[..i]);
    UploadsShape(g, files[..i]);
    assert files[..i + 1][..i] == files[..i];
    UploadsStopped(g, files, i + 1);
  }

  /** Files that are all paths or BytesIO objects and all upload fine give
      a successful loop. */
  lemma {:induction false} UploadsSucceed(g: Gemini, files: seq<AudioArg>)
    requires forall j :: 0 <= j < |files| ==> UploadsFine(g, files[j])
    ensures Uploads(g, files).0.Success?
    decreases |files|
  {
    if files != [] {
      UploadsSucceed(g, files[..|files| - 1]);
    }
  }

  /** The tagging rules: with at least one name, every result ends up with
      a `Filename`; one it already had is kept; a missing one is the name at
      its position, or the last name past the end of the list; no other key
      changes. Without names nothing changes. */
  lemma TaggedRules(results: seq<Record>, names: seq<string>, i: nat)
    requires i < |results|
    ensures var r := Tagged(results, names)[i];
            && (names == [] ==> r == results[i])
            && (names != [] ==> "Filename" in r && r.Keys == results[i].Keys + {"Filename"})
            && ("Filename" in results[i] ==> r == results[i])
            && (names != [] && "Filename" !in results[i] && i < |names| ==> r["Filename"] == Text(names[i]))
            && (names != [] && "Filename" !in results[i] && |names| <= i ==> r["Filename"] == Text(names[|names| - 1]))
            && forall k :: k in results[i] && k != "Filename" ==> r[k] == results[i][k]
  {
  }

  /** Only a rate limit is retried: an attempt that fails otherwise ends
      the call with that very exception, after one call and no rotation. */
  lemma AttemptsOtherError(reply: Replies, names: seq<string>, count: nat, a: nat, n: int,
                           st: State, e: Exception)
    requires count > 0 && a < n
    requires reply(st.key, a) == Failure(e) && !IsRateLimit(e)
    ensures Attempts(reply, names, count, a, n, st) == (Failure(e), State(st.key, st.log + [SttLlm.Called(Model)]))
  {
  }

  /** What `m` rate-limited attempts append to the log from cursor `k`: a
      call, a rotation to the next key and a one-second wait, each time. */
  function RateLimitedRounds(k: nat, m: nat, count: nat): seq<SttLlm.Event>
    requires count > 0
    decreases m
  {
    if m == 0 then []
    else [SttLlm.Called(Model), SttLlm.Rotated(Next(k, count)), SttLlm.Slept(1)]
         + RateLimitedRounds(Next(k, count), m - 1, count)
  }

  /** When every remaining attempt hits a rate limit, the call ends in the
      RuntimeError naming `max_retries`, after one rotation per attempt. */
  lemma {:induction false} AttemptsAllRateLimited(reply: Replies, names: seq<string>, count: nat,
                                                  a: nat, n: nat, st: State)
    requires count > 0 && st.key < count && a <= n
    requires forall j: nat, k: nat :: a <= j < n && k < count ==>
               reply(k, j).Failure? && IsRateLimit(reply(k, j).error)
    ensures Attempts(reply, names, count, a, n, st)
            == (Failure(Exhausted(n)),
                State(Advance(st.key, n - a, count), st.log + RateLimitedRounds(st.key, n - a, count)))
    decreases n - a
  {
    if a < n {
      var k := Next(st.key, count);
      var called := st.log + [SttLlm.Called(Model)];
      var st1 := State(k, called + [SttLlm.Rotated(k), SttLlm.Slept(1)]);
      var r := reply(st.key, a);
      assert r.Failure? && IsRateLimit(r.error);
      assert Attempts(reply, names, count, a, n, st) == Attempts(reply, names, count, a + 1, n, st1);
      AttemptsAllRateLimited(reply, names, count, a + 1, n, st1);
      RoundsFirst(st.key, n - a, count, st.log);
    } else {
      assert st.log + RateLimitedRounds(st.key, 0, count) == st.log;
    }
  }

  /** The `m` attempts from `a` on hit a rate limit, the first with the
      key at cursor `key` and each later one with the key the rotation
      before it left. */
  predicate RateLimitedFrom(reply: Replies, count: nat, key: nat, a: nat, m: nat)
    requires count > 0
    decreases m
  {
    m == 0
    || (&& reply(key, a).Failure? && IsRateLimit(reply(key, a).error)
        && RateLimitedFrom(reply, count, Next(key, count), a + 1, m - 1))
  }

  /** When the next `m` attempts hit a rate limit and the one after
      answers, with the key the last rotation left, the call returns that
      answer tagged with the file names, after `m` rotations and `m + 1`
      calls. */
  lemma {:induction false} AttemptsRateLimitedThenAnswered(reply: Replies, names: seq<string>, count: nat,
                                                           a: nat, m: nat, n: int, st: State, results: seq<Record>)
    requires count > 0 && st.key < count && a + m < n
    requires RateLimitedFrom(reply, count, st.key, a, m)
    requires reply(Advance(st.key, m, count), a + m) == Success(results)
    ensures Attempts(reply, names, count, a, n, st)
            == (Success(Tagged(results, names)),
                State(Advance(st.key, m, count), st.log + RateLimitedRounds(st.key, m, count) + [SttLlm.Called(Model)]))
    decreases m
  {
    if m > 0 {
      var k := Next(st.key, count);
      var st1 := State(k, st.log + [SttLlm.Called(Model)] + [SttLlm.Rotated(k), SttLlm.Slept(1)]);
      assert Attempts(reply, names, count, a, n, st) == Attempts(reply, names, count, a + 1, n, st1);
      RoundsFirst(st.key, m, count, st.log);
      assert a + 1 + (m - 1) == a + m;
      AttemptsRateLimitedThenAnswered(reply, names, count, a + 1, m - 1, n, st1, results);
    } else {
      assert st.log + RateLimitedRounds(st.key, 0, count) == st.log;
    }
  }

  /** The first of `m` rate-limited rounds, then the other `m - 1`. */
  lemma RoundsFirst(k: nat, m: nat, count: nat, log: seq<SttLlm.Event>)
    requires count > 0 && k < count && m > 0
    ensures var k1 := Next(k, count);
            log + [SttLlm.Called(Model)] + [SttLlm.Rotated(k1), SttLlm.Slept(1)] + RateLimitedRounds(k1, m - 1, count)
              == log + RateLimitedRounds(k, m, count)
            && Advance(k1, m - 1, count) == Advance(k, m, count)
  {
    AdvanceFirst(k, m, count);
  }

  /** Advancing `m + 1` steps is one step and then `m`. */
  lemma {:induction false} AdvanceFirst(start: nat, m: nat, count: nat)
    requires count > 0 && start < count && m > 0
    ensures Advance(start, m, count) == Advance(Next(start, count), m - 1, count)
    decreases m
  {
    if m > 1 {
      AdvanceFirst(start, m - 1, count);
    }
  }

  /** Every failure of the loop is either the final RuntimeError or an
      error that is not a rate limit. */
  lemma {:induction false} AttemptsErrors(reply: Replies, names: seq<string>, count: nat,
                                          a: nat, n: int, st: State)
    requires count > 0
    ensures var r := Attempts(reply, names, count, a, n, st).0;
            r.Failure? ==> r.error == Exhausted(n) || !IsRateLimit(r.error)
    decreases n - a
  {
    if a < n {
      var k := Next(st.key, count);
      var called := st.log + [SttLlm.Called(Model)];
      AttemptsErrors(reply, names, count, a + 1, n, State(k, called + [SttLlm.Rotated(k), SttLlm.Slept(1)]));
    }
  }

  /** The key cursor is the start advanced once per rotation in the log. */
  predicate KeyTracks(start: nat, count: nat, st: State)
    requires count > 0 && start < count
  {
    st.key == Advance(start, SttLlm.CountRotations(st.log), count)
  }

  /** The loop only appends to the log, and keeps the cursor in step with
      the rotations. */
  lemma {:induction false} AttemptsKey(reply: Replies, names: seq<string>, count: nat,
                                       start: nat, a: nat, n: int, st: State)
    requires count > 0 && start < count && KeyTracks(start, count, st)
    ensures var st' := Attempts(reply, names, count, a, n, st).1;
            SttLlm.Extends(st.log, st'.log) && KeyTracks(start, count, st')
    decreases n - a
  {
    if a < n {
      var called := st.log + [SttLlm.Called(Model)];
      if reply(st.key, a).Failure? && IsRateLimit(reply(st.key, a).error) {
        var k := Next(st.key, count);
        var st1 := State(k, called + [SttLlm.Rotated(k), SttLlm.Slept(1)]);
        assert Attempts(reply, names, count, a, n, st) == Attempts(reply, names, count, a + 1, n, st1);
        RotationTracks(start, count, st);
        AttemptsKey(reply, names, count, start, a + 1, n, st1);
        SttLlm.ExtendsTrans(st.log, st1.log, Attempts(reply, names, count, a + 1, n, st1).1.log);
      } else {
        assert Attempts(reply, names, count, a, n, st).1 == State(st.key, called);
        SttLlm.CountsPush(st.log, SttLlm.Called(Model));
        assert called[..|st.log|] == st.log;
      }
    }
  }

  /** One attempt either ends the loop after one call with the cursor
      unchanged, or rotates, waits and hands over to the next attempt. */
  lemma AttemptsShape(reply: Replies, names: seq<string>, count: nat, a: nat, n: int, st: State)
    requires count > 0 && a < n
    ensures var k := Next(st.key, count);
            var st1 := State(k, st.log + [SttLlm.Called(Model)] + [SttLlm.Rotated(k), SttLlm.Slept(1)]);
            var r := Attempts(reply, names, count, a, n, st);
            r.1 == State(st.key, st.log + [SttLlm.Called(Model)])
            || r == Attempts(reply, names, count, a + 1, n, st1)
  {
  }

  /** A rate-limited attempt logs one call, one rotation and one wait, and
      moves the cursor one step: the cursor still tracks the rotations. */
  lemma RotationTracks(start: nat, count: nat, st: State)
    requires count > 0 && start < count && KeyTracks(start, count, st)
    ensures var k := Next(st.key, count);
            var log1 := st.log + [SttLlm.Called(Model)] + [SttLlm.Rotated(k), SttLlm.Slept(1)];
            SttLlm.Extends(st.log, log1) && KeyTracks(start, count, State(k, log1))
  {
    var k := Next(st.key, count);
    var called := st.log + [SttLlm.Called(Model)];
    assert called + [SttLlm.Rotated(k), SttLlm.Slept(1)] == called + [SttLlm.Rotated(k)] + [SttLlm.Slept(1)];
    SttLlm.CountsPush(st.log, SttLlm.Called(Model));
    SttLlm.CountsPush(called, SttLlm.Rotated(k));
    SttLlm.CountsPush(called + [SttLlm.Rotated(k)], SttLlm.Slept(1));
    assert (called + [SttLlm.Rotated(k), SttLlm.Slept(1)])[..|st.log|] == st.log;
  }

  /** With at least one file name every result of a successful loop
      carries a `Filename`. */
  lemma {:induction false} AttemptsTagsAll(reply: Replies, names: seq<string>, count: nat,
                                           a: nat, n: int, st: State)
    requires count > 0 && names != []
    ensures var r := Attempts(reply, names, count, a, n, st).0;
            r.Success? ==> forall i :: 0 <= i < |r.value| ==> "Filename" in r.value[i]
    decreases n - a
  {
    if a < n {
      match reply(st.key, a)
      case Success(results) =>
        forall i | 0 <= i < |results|
          ensures "Filename" in Tagged(results, names)[i]
        {
          TaggedRules(results, names, i);
        }
      case Failure(e) =>
        if IsRateLimit(e) {
          var k := Next(st.key, count);
          var called := st.log + [SttLlm.Called(Model)];
          var st1 := State(k, called + [SttLlm.Rotated(k), SttLlm.Slept(1)]);
          assert Attempts(reply, names, count, a, n, st) == Attempts(reply, names, count, a + 1, n, st1);
          AttemptsTagsAll(reply, names, count, a + 1, n, st1);
        }
    }
  }

  /** A single path or BytesIO is uploaded alone, and every result of a
      successful call is tagged with a `Filename`; a BytesIO whose type
      detection raises ends the call with that exception, uploading
      nothing and calling no model. */
  lemma NonSplitSingle(g: Gemini, file: AudioArg, n: int, count: nat, st: State)
    requires count > 0 && IsPathOrBuffer(file)
    ensures Elements(One(file)) == Success([file])
    ensures var r := NonSplit(g, One(file), n, count, st).0;
            r.Success? ==> forall i :: 0 <= i < |r.value| ==> "Filename" in r.value[i]
    ensures file.BufferArg? && g.magic(file.data).Raised? ==>
              NonSplit(g, One(file), n, count, st) == (Failure(g.magic(file.data).error), st)
  {
    var (up, uploads) := Uploads(g, [file]);
    assert Elements(One(file)) == Success([file]);
    if file.BufferArg? && g.magic(file.data).Raised? {
      assert [file][..0] == [];
      assert Uploads(g, [file][..0]) == (Success(([], [])), []);
      assert Mime(file, g) == SttLlm.Raised(g.magic(file.data).error);
      assert uploads == [];
      assert st.log + uploads == st.log;
    }
    if up.Success? {
      UploadsShape(g, [file]);
      var st' := State(st.key, st.log + uploads);
      assert NonSplit(g, One(file), n, count, st) == Attempts(RepliesOf(g, up.value.0), up.value.1, count, 0, n, st');
      AttemptsTagsAll(RepliesOf(g, up.value.0), up.value.1, count, 0, n, st');
    }
  }

  /** A `bytes` object is walked byte by byte: a non-empty one raises
      "Unsupported file type" before anything is uploaded; any other
      object that is not a list raises TypeError. */
  lemma NonSplitRejects(g: Gemini, file: AudioArg, n: int, count: nat, st: State)
    requires count > 0 && !IsPathOrBuffer(file)
    requires file.BytesArg? ==> |file.bytes| > 0
    ensures NonSplit(g, One(file), n, count, st)
            == (Failure(if file.OtherArg? then NotIterable else UnsupportedType), st)
  {
    if file.BytesArg? {
      var items := seq(|file.bytes|, _ => OtherArg);
      assert Elements(One(file)) == Success(items);
      assert items[..1] == [OtherArg] && [OtherArg][..0] == [];
      assert Uploads(g, items[..1]) == (Failure(UnsupportedType), []);
      UploadsStopped(g, items, 1);
      assert State(st.key, st.log + []) == st;
    }
  }

  // ---------------------------------------------------------------------
  // Properties of the split path

  /** A file with at most two silences (read back when it is a path), or
      one the greedy packing leaves in one piece or none, is transcribed
      whole. */
  lemma SplitOneWhole(g: Gemini, p: Pydub, file: AudioArg, n: int, minLen: int, maxLen: Option<int>,
                      count: nat, st: State)
    requires count > 0 && IsPathOrBuffer(file) && Whole(p, file, minLen, maxLen)
    ensures SplitOne(g, p, file, n, minLen, maxLen, count, st) == NonSplit(g, One(file), n, count, st)
  {
  }

  /** A file pydub cannot decode, at either of its two decodings, or a path
      that cannot be opened for the uncut copy, ends the call with that
      error before any upload or model call. */
  lemma SplitOneRaises(g: Gemini, p: Pydub, file: AudioArg, n: int, minLen: int, maxLen: Option<int>,
                       count: nat, st: State)
    requires count > 0 && IsPathOrBuffer(file)
    ensures p.silences(file).Failure? ==>
              SplitOne(g, p, file, n, minLen, maxLen, count, st) == (Failure(p.silences(file).error), st)
    ensures p.silences(file).Success? && p.silences(file).value <= 2 && file.PathArg? && p.readFile(file.path).Failure? ==>
              SplitOne(g, p, file, n, minLen, maxLen, count, st) == (Failure(p.readFile(file.path).error), st)
    ensures p.silences(file).Success? && p.silences(file).value > 2 && p.chunks(file).Failure? ==>
              SplitOne(g, p, file, n, minLen, maxLen, count, st) == (Failure(p.chunks(file).error), st)
  {
  }

  /** Every item of part `i` carries `Filename = "{original}_part{i+1}"`,
      whatever it had before; its other keys are kept. */
  lemma PartTaggedRules(items: seq<Record>, name: string, k: nat)
    requires k < |items|
    ensures PartTagged(items, name)[k]["Filename"] == Text(name)
    ensures PartTagged(items, name)[k].Keys == items[k].Keys + {"Filename"}
    ensures forall key :: key in items[k] && key != "Filename" ==> PartTagged(items, name)[k][key] == items[k][key]
  {
  }

  /** Every item carries a `Filename`, the name of one of the first `m`
      parts. */
  predicate NamedParts(items: seq<Record>, original: string, m: nat) {
    forall k :: 0 <= k < |items| ==>
      "Filename" in items[k] && exists j :: 0 <= j < m && items[k]["Filename"] == Text(PartName(original, j))
  }

  /** Appending part `i`'s tagged items keeps every item named after one
      of the parts so far. */
  lemma NamedPartsAppend(prev: seq<Record>, items: seq<Record>, original: string, i: nat)
    requires NamedParts(prev, original, i)
    ensures NamedParts(prev + PartTagged(items, PartName(original, i)), original, i + 1)
  {
    var all := prev + PartTagged(items, PartName(original, i));
    forall k | 0 <= k < |all|
      ensures "Filename" in all[k]
      ensures exists j :: 0 <= j < i + 1 && all[k]["Filename"] == Text(PartName(original, j))
    {
      if k < |prev| {
        assert all[k] == prev[k];
        var j :| 0 <= j < i && prev[k]["Filename"] == Text(PartName(original, j));
      } else {
        PartTaggedRules(items, PartName(original, i), k - |prev|);
        assert all[k]["Filename"] == Text(PartName(original, i));
      }
    }
  }

  /** Every item of a successful split comes from one of the parts and is
      named after it. */
  lemma {:induction false} PartsNamed(part: PartRun, original: string, segs: seq<Audio>, st: State)
    ensures var r := Parts(part, original, segs, st).0;
            r.Success? ==> NamedParts(r.value, original, |segs|)
    decreases |segs|
  {
    if segs != [] {
      var i := |segs| - 1;
      PartsNamed(part, original, segs[..i], st);
      var (prev, st1) := Parts(part, original, segs[..i], st);
      if prev.Success? {
        var (r, st2) := part(segs[i], st1);
        if r.Success? {
          NamedPartsAppend(prev.value, r.value, original, i);
        }
      }
    }
  }

  /** A run over `xs + ys` is the run over `xs`, then (unless it failed)
      the run over `ys` from where it left off, with the results
      concatenated. */
  lemma {:induction false} SequencedAppend(step: (AudioArg, State) -> (Result<seq<Record>, Exception>, State),
                                           xs: seq<AudioArg>, ys: seq<AudioArg>, st: State)
    ensures var (r1, st1) := Sequenced(step, xs, st);
            var (r2, st2) := Sequenced(step, ys, st1);
            Sequenced(step, xs + ys, st)
            == if r1.Failure? then (r1, st1)
               else if r2.Failure? then (r2, st2)
               else (Success(r1.value + r2.value), st2)
    decreases |ys|
  {
    if ys == [] {
      assert xs + ys == xs;
      var r1 := Sequenced(step, xs, st).0;
      if r1.Success? {
        assert r1.value + [] == r1.value;
      }
    } else {
      var init, y := ys[..|ys| - 1], ys[|ys| - 1];
      var zs := xs + ys;
      assert zs[..|zs| - 1] == xs + init;
      assert zs[|zs| - 1] == y;
      SequencedAppend(step, xs, init, st);
      var (r1, st1) := Sequenced(step, xs, st);
      if r1.Success? {
        var (ri, sti) := Sequenced(step, init, st1);
        if ri.Success? {
          var (ry, sty) := step(y, sti);
          if ry.Success? {
            assert r1.value + ri.value + ry.value == r1.value + (ri.value + ry.value);
          }
        }
      }
    }
  }

  /** One more element: while the prefix succeeds, the run over
      `files[..i + 1]` extends it by `step` on `files[i]`. */
  lemma SequencedNext(step: (AudioArg, State) -> (Result<seq<Record>, Exception>, State),
                      files: seq<AudioArg>, i: nat, st: State)
    requires i < |files|
    ensures var (prev, st1) := Sequenced(step, files[..i], st);
            var (r, st2) := step(files[i], st1);
            prev.Success? ==>
              Sequenced(step, files[..i + 1], st)
              == if r.Failure? then (Failure(r.error), st2) else (Success(prev.value + r.value), st2)
  {
    var ys := files[..i + 1];
    assert ys[..|ys| - 1] == files[..i];
    assert ys[|ys| - 1] == files[i];
    assert ys != [];
    var (prev, st1) := Sequenced(step, files[..i], st);
    if prev.Success? {
      var (r, st2) := step(files[i], st1);
      assert Sequenced(step, ys, st)
             == if r.Failure? then (Failure(r.error), st2) else (Success(prev.value + r.value), st2);
    }
  }

  /** A run over one element is that element's step. */
  lemma SequencedSingle(step: (AudioArg, State) -> (Result<seq<Record>, Exception>, State), x: AudioArg, st: State)
    ensures Sequenced(step, [x], st) == step(x, st)
  {
    assert [x][..0] == [];
    var r := step(x, st).0;
    if r.Success? {
      assert [] + r.value == r.value;
    }
  }

  /** Once a prefix fails, the whole run fails the same way. */
  lemma SequencedStopped(step: (AudioArg, State) -> (Result<seq<Record>, Exception>, State),
                         files: seq<AudioArg>, i: nat, st: State)
    requires i <= |files|
    requires Sequenced(step, files[..i], st).0.Failure?
    ensures Sequenced(step, files, st) == Sequenced(step, files[..i], st)
  {
    SequencedAppend(step, files[..i], files[i..], st);
    assert files[..i] + files[i..] == files;
  }

  /** Split mode over several files runs them in input order: the results
      for `xs + ys` are those for `xs` followed by those for `ys`. */
  lemma SplitManyAppend(g: Gemini, p: Pydub, xs: seq<AudioArg>, ys: seq<AudioArg>, n: int,
                        minLen: int, maxLen: Option<int>, count: nat, st: State)
    requires count > 0
    ensures var (r1, st1) := SplitMany(g, p, xs, n, minLen, maxLen, count, st);
            var (r2, st2) := SplitMany(g, p, ys, n, minLen, maxLen, count, st1);
            SplitMany(g, p, xs + ys, n, minLen, maxLen, count, st)
            == if r1.Failure? then (r1, st1)
               else if r2.Failure? then (r2, st2)
               else (Success(r1.value + r2.value), st2)
  {
    SequencedAppend(SplitStep(g, p, n, minLen, maxLen, count), xs, ys, st);
  }

  /** A list of one file in split mode is that file split. */
  lemma SplitManySingle(g: Gemini, p: Pydub, file: AudioArg, n: int, minLen: int, maxLen: Option<int>,
                        count: nat, st: State)
    requires count > 0
    ensures SplitMany(g, p, [file], n, minLen, maxLen, count, st) == SplitOne(g, p, file, n, minLen, maxLen, count, st)
  {
    var step := SplitStep(g, p, n, minLen, maxLen, count);
    SequencedSingle(step, file, st);
    assert step(file, st) == SplitOne(g, p, file, n, minLen, maxLen, count, st);
  }

  // ---------------------------------------------------------------------
  // Properties of transcript_split_audio

  /** The fallback rules: every item ends up with a `Filename`; one it
      already had is kept with the rest of the item; a missing one is the
      chunk's base name, its `.name`'s base name, or `audio_part{i+1}`. */
  lemma WithFallbackRules(items: seq<Record>, chunk: AudioArg, i: nat)
    ensures var r := WithFallback(items, chunk, i);
            forall k :: 0 <= k < |items| ==>
              && r[k].Keys == items[k].Keys + {"Filename"}
              && ("Filename" in items[k] ==> r[k] == items[k])
              && ("Filename" !in items[k] ==>
                    && (forall key :: key in items[k] ==> r[k][key] == items[k][key])
                    && r[k]["Filename"] == Text(match chunk
                         case PathArg(path) => BaseName(path)
                         case BufferArg(_, Some(name)) =>
                           if name != "" then BaseName(name) else "audio_part" + IntToString(i + 1)
                         case _ => "audio_part" + IntToString(i + 1)))
  {
  }

  /** The fallback naming never applies to a path or a BytesIO chunk: the
      unsplit call has already tagged every item. */
  lemma FallbackUnused(g: Gemini, chunk: AudioArg, i: nat, count: nat, st: State)
    requires count > 0 && IsPathOrBuffer(chunk)
    ensures var r := NonSplit(g, One(chunk), 3, count, st).0;
            r.Success? ==> WithFallback(r.value, chunk, i) == r.value
  {
    NonSplitSingle(g, chunk, 3, count, st);
  }

  /** Chunks that cannot be transcribed at all (objects that are not
      files, non-empty `bytes`) are skipped without a trace. */
  lemma {:induction false} SplitAudioSkipsUnsupported(g: Gemini, chunks: seq<AudioArg>, count: nat, st: State)
    requires count > 0
    requires forall i :: 0 <= i < |chunks| ==>
               chunks[i].OtherArg? || (chunks[i].BytesArg? && |chunks[i].bytes| > 0)
    ensures SplitAudioResults(g, chunks, count, st) == ([], st)
    decreases |chunks|
  {
    if chunks != [] {
      var i := |chunks| - 1;
      SplitAudioSkipsUnsupported(g, chunks[..i], count, st);
      NonSplitRejects(g, chunks[i], 3, count, st);
    }
  }

  /** Once the loop over a prefix of the parts has failed, the loop over
      all of them fails the same way and transcribes nothing more. */
  lemma {:induction false} PartsStopped(part: PartRun, original: string, segs: seq<Audio>,
                                        st: State, k: nat)
    requires k <= |segs|
    requires Parts(part, original, segs[..k], st).0.Failure?
    ensures Parts(part, original, segs, st) == Parts(part, original, segs[..k], st)
    decreases |segs| - k
  {
    if k < |segs| {
      assert segs[..k + 1][..k] == segs[..k];
      PartsStopped(part, original, segs, st, k + 1);
    } else {
      assert segs[..k] == segs;
    }
  }

  // ---------------------------------------------------------------------
  // The module's functions, step by step over the shared credential pool.
  // Each takes the log so far and returns it extended, as a ghost value.

  /** The `for file in files` upload loop. */
  method UploadFiles(g: Gemini, files: seq<AudioArg>)
    returns (r: Result<(seq<string>, seq<string>), Exception>, ghost log: seq<SttLlm.Event>)
    ensures (r, log) == Uploads(g, files)
  {
    var handles: seq<string>, names: seq<string> := [], [];
    log := [];
    for i := 0 to |files|
      invariant (Success((handles, names)), log) == Uploads(g, files[..i])
    {
      var file := files[i];
      UploadsNext(g, files, i);
      var name: string;
      var config: Option<string>;
      match file {
        case PathArg(path) =>
          name, config := BaseName(path), None;
        case BufferArg(data, bufferName) =>
          match g.magic(data) {
            case Raised(e) =>
              UploadsStopped(g, files, i + 1);
              return Failure(e), log;
            case Ok(mime) =>
              config := Some(mime);
          }
          name := if bufferName.Some? && bufferName.value != "" then BaseName(bufferName.value)
                  else "audio_" + RandomString(g.picks(file), 8) + ".wav";
        case _ =>
          UploadsStopped(g, files, i + 1);
          return Failure(UnsupportedType), log;
      }
      match g.upload(file, config) {
        case Raised(e) =>
          UploadsStopped(g, files, i + 1);
          return Failure(e), log;
        case Ok(h) =>
          handles, names, log := handles + [h], names + [name], log + [SttLlm.Uploaded(h)];
      }
    }
    assert files[..|files|] == files;
    r := Success((handles, names));
  }

  /** The upload loop over one more file. */
  lemma UploadsNext(g: Gemini, files: seq<AudioArg>, i: nat)
    requires i < |files|
    ensures var (prev, log) := Uploads(g, files[..i]);
            Uploads(g, files[..i + 1]) ==
              if prev.Failure? then (prev, log)
              else if !IsPathOrBuffer(files[i]) then (Failure(UnsupportedType), log)
              else
                match Mime(files[i], g)
                case Raised(e) => (Failure(e), log)
                case Ok(config) =>
                  match g.upload(files[i], config)
                  case Raised(e) => (Failure(e), log)
                  case Ok(h) => (Success((prev.value.0 + [h], prev.value.1 + [UploadName(files[i], g)])), log + [SttLlm.Uploaded(h)])
  {
    assert files[..i + 1][..i] == files[..i];
  }

  /** The `for i, result in enumerate(results)` naming loop. */
  method TagFilenames(results: seq<Record>, names: seq<string>) returns (tagged: seq<Record>)
    ensures tagged == Tagged(results, names)
  {
    tagged := results;
    for i := 0 to |results|
      invariant |tagged| == |results|
      invariant forall k :: 0 <= k < i ==> tagged[k] == Tagged(results, names)[k]
      invariant forall k :: i <= k < |results| ==> tagged[k] == results[k]
    {
      var fileIndex := if names != [] then Min(i, |names| - 1) else 0;
      if "Filename" !in tagged[i] && names != [] {
        tagged := tagged[i := tagged[i]["Filename" := Text(names[fileIndex])]];
      }
    }
  }

  /** One `generate_content` call with key `key`, and the parse of its
      text. */
  method GenerateContent(g: Gemini, handles: seq<string>, key: nat, attempt: nat)
    returns (parsed: Result<seq<Record>, Exception>)
    ensures parsed == RepliesOf(g, handles)(key, attempt)
  {
    parsed := match g.generate(handles, key, attempt)
              case Ok(text) => SttLlm.ParseResponse(text, g.loads)
              case Raised(e) => Failure(e);
  }

  /** Module load: `API_KEYS` holds the four configured keys and the client
      starts on the second of them. */
  method LoadClient(key1: string, key2: string, key3: string, key4: string) returns (pool: CredentialPool)
    ensures fresh(pool) && pool.Valid()
    ensures pool.keys == [key1, key2, key3, key4] && pool.index == 1 && pool.CurrentKey() == key2
  {
    pool := new CredentialPool([key1, key2, key3, key4], 1);
  }

  /** The `for attempt in range(max_retries)` loop around
      `generate_content`. */
  method RetryLoop(pool: CredentialPool, g: Gemini, handles: seq<string>, names: seq<string>, n: int,
                   ghost log0: seq<SttLlm.Event>)
    returns (r: Result<seq<Record>, Exception>, ghost log: seq<SttLlm.Event>)
    requires pool.Valid()
    modifies pool
    ensures pool.Valid()
    ensures (r, State(pool.index, log)) == Attempts(RepliesOf(g, handles), names, |pool.keys|, 0, n, State(old(pool.index), log0))
  {
    ghost var reply := RepliesOf(g, handles);
    ghost var target := Attempts(reply, names, |pool.keys|, 0, n, State(pool.index, log0));
    log := log0;
    var outcome: Option<Result<seq<Record>, Exception>> := None;
    var attempt: nat := 0;
    while outcome.None? && attempt < n
      invariant pool.Valid()
      invariant outcome.None? ==> Attempts(reply, names, |pool.keys|, attempt, n, State(pool.index, log)) == target
      invariant outcome.Some? ==> (outcome.value, State(pool.index, log)) == target
      decreases n - attempt
    {
      ghost var before := State(pool.index, log);
      log := log + [SttLlm.Called(Model)];
      var parsed := GenerateContent(g, handles, pool.index, attempt);
      if parsed.Success? {
        var tagged := TagFilenames(parsed.value, names);
        outcome := Some(Success(tagged));
      } else if IsRateLimit(parsed.error) {
        pool.ChangeApiKey();
        log := log + [SttLlm.Rotated(pool.index), SttLlm.Slept(1)];
      } else {
        outcome := Some(Failure(parsed.error));
      }
      attempt := attempt + 1;
    }
    r := if outcome.Some? then outcome.value else Failure(Exhausted(n));
  }

  /** `transcript_audios(files, max_retries=n)` without splitting. */
  method TranscribeUnsplit(pool: CredentialPool, g: Gemini, files: Files, n: int, ghost log0: seq<SttLlm.Event>)
    returns (r: Result<seq<Record>, Exception>, ghost log: seq<SttLlm.Event>)
    requires pool.Valid()
    modifies pool
    ensures pool.Valid()
    ensures (r, State(pool.index, log)) == NonSplit(g, files, n, |pool.keys|, State(old(pool.index), log0))
  {
    var elements := Elements(files);
    if elements.Failure? {
      return Failure(elements.error), log0;
    }
    var up, uploads := UploadFiles(g, elements.value);
    log := log0 + uploads;
    if up.Failure? {
      return Failure(up.error), log;
    }
    var (handles, names) := up.value;
    r, log := RetryLoop(pool, g, handles, names, n, log);
  }

  /** The `for item in result` loop of one part: every item gets the
      part's name. */
  method NamePart(items: seq<Record>, name: string) returns (named: seq<Record>)
    ensures named == PartTagged(items, name)
  {
    named := items;
    for k := 0 to |items|
      invariant |named| == |items|
      invariant forall j :: 0 <= j < k ==> named[j] == items[j]["Filename" := Text(name)]
      invariant forall j :: k <= j < |items| ==> named[j] == items[j]
    {
      named := named[k := named[k]["Filename" := Text(name)]];
    }
  }

  /** The `for i, chunk in enumerate(audio_chunks)` loop of split mode. */
  method TranscribeParts(pool: CredentialPool, g: Gemini, exportWav: Audio -> seq<byte>, original: string,
                         segs: seq<Audio>, n: int, ghost log0: seq<SttLlm.Event>)
    returns (r: Result<seq<Record>, Exception>, ghost log: seq<SttLlm.Event>)
    requires pool.Valid()
    modifies pool
    ensures pool.Valid()
    ensures (r, State(pool.index, log))
            == Parts(PartRunOf(g, exportWav, n, |pool.keys|), original, segs, State(old(pool.index), log0))
  {
    ghost var st0 := State(pool.index, log0);
    ghost var part := PartRunOf(g, exportWav, n, |pool.keys|);
    var results: seq<Record> := [];
    log := log0;
    for i := 0 to |segs|
      invariant pool.Valid()
      invariant (Success(results), State(pool.index, log)) == Parts(part, original, segs[..i], st0)
    {
      assert segs[..i + 1][..i] == segs[..i];
      ghost var before := State(pool.index, log);
      var chunk := BufferArg(exportWav(segs[i]), None);
      var result;
      result, log := TranscribeUnsplit(pool, g, One(chunk), n, log);
      assert part(segs[i], before) == (result, State(pool.index, log));
      if result.Failure? {
        PartsStopped(part, original, segs, st0, i + 1);
        return Failure(result.error), log;
      }
      var named := NamePart(result.value, PartName(original, i));
      results := results + named;
    }
    assert segs[..|segs|] == segs;
    r := Success(results);
  }

  /** `transcript_audios(file, split_audio=True)` for one file. */
  method TranscribeSplitOne(pool: CredentialPool, g: Gemini, p: Pydub, file: AudioArg, n: int,
                            minLen: int, maxLen: Option<int>, ghost log0: seq<SttLlm.Event>)
    returns (r: Result<seq<Record>, Exception>, ghost log: seq<SttLlm.Event>)
    requires pool.Valid()
    modifies pool
    ensures pool.Valid()
    ensures (r, State(pool.index, log))
            == SplitOne(g, p, file, n, minLen, maxLen, |pool.keys|, State(old(pool.index), log0))
  {
    var original := OriginalName(file, g);
    var pieces := SplitAudio.ProcessAudioFile(file, p.silences(file), p.chunks(file), minLen, maxLen,
                                              false, None, "", "", p.readFile);
    if pieces.Failure? {
      return Failure(pieces.error), log0;
    }
    if |pieces.value| <= 1 {
      r, log := TranscribeUnsplit(pool, g, One(file), n, log0);
      return;
    }
    ghost var segments := SplitAudio.GreedySegments(p.chunks(file).value, minLen, maxLen);
    assert p.silences(file).value > 2 && |pieces.value| == |segments|;
    var segs := seq(|pieces.value|, i requires 0 <= i < |pieces.value| =>
                      if pieces.value[i].Cut? then pieces.value[i].audio else []);
    assert segs == segments;
    r, log := TranscribeParts(pool, g, p.exportWav, original, segs, n, log0);
  }

  /** The `for file in files` loop of split mode over several files. */
  method TranscribeSplitMany(pool: CredentialPool, g: Gemini, p: Pydub, files: seq<AudioArg>, n: int,
                             minLen: int, maxLen: Option<int>, ghost log0: seq<SttLlm.Event>)
    returns (r: Result<seq<Record>, Exception>, ghost log: seq<SttLlm.Event>)
    requires pool.Valid()
    modifies pool
    ensures pool.Valid()
    ensures (r, State(pool.index, log))
            == SplitMany(g, p, files, n, minLen, maxLen, |pool.keys|, State(old(pool.index), log0))
  {
    ghost var st0 := State(pool.index, log0);
    ghost var step := SplitStep(g, p, n, minLen, maxLen, |pool.keys|);
    var all: seq<Record> := [];
    log := log0;
    for i := 0 to |files|
      invariant pool.Valid()
      invariant (Success(all), State(pool.index, log)) == Sequenced(step, files[..i], st0)
    {
      ghost var before := State(pool.index, log);
      var results;
      results, log := TranscribeSplitOne(pool, g, p, files[i], n, minLen, maxLen, log);
      assert step(files[i], before) == (results, State(pool.index, log));
      SequencedNext(step, files, i, st0);
      if results.Failure? {
        SequencedStopped(step, files, i + 1, st0);
        return Failure(results.error), log;
      }
      all := all + results.value;
    }
    assert files[..|files|] == files;
    r := Success(all);
  }

  /** `transcript_audios`. */
  method TranscriptAudios(pool: CredentialPool, g: Gemini, p: Pydub, files: Files, n: int, split: bool,
                          minLen: int, maxLen: Option<int>, ghost log0: seq<SttLlm.Event>)
    returns (r: Result<seq<Record>, Exception>, ghost log: seq<SttLlm.Event>)
    requires pool.Valid()
    modifies pool
    ensures pool.Valid()
    ensures (r, State(pool.index, log))
            == TranscriptAudiosSpec(g, p, files, n, split, minLen, maxLen, |pool.keys|, State(old(pool.index), log0))
  {
    if !split {
      r, log := TranscribeUnsplit(pool, g, files, n, log0);
    } else if files.Many? && |files.items| > 1 {
      r, log := TranscribeSplitMany(pool, g, p, files.items, n, minLen, maxLen, log0);
    } else if files.Many? && files.items == [] {
      r, log := Failure(NoFirstFile), log0;
    } else {
      var single := if files.Many? then files.items[0] else files.file;
      r, log := TranscribeSplitOne(pool, g, p, single, n, minLen, maxLen, log0);
    }
  }

  /** The `for item in result` loop of `transcript_split_audio`. */
  method NameMissing(items: seq<Record>, chunk: AudioArg, i: nat) returns (named: seq<Record>)
    ensures named == WithFallback(items, chunk, i)
  {
    named := items;
    for k := 0 to |items|
      invariant |named| == |items|
      invariant forall j :: 0 <= j < k ==> named[j] == WithFallback(items, chunk, i)[j]
      invariant forall j :: k <= j < |items| ==> named[j] == items[j]
    {
      if "Filename" !in named[k] {
        var chunkName := FallbackName(chunk, i);
        named := named[k := named[k]["Filename" := Text(chunkName)]];
      }
    }
  }

  /** `transcript_split_audio`: a chunk that raises is reported and
      skipped. */
  method TranscriptSplitAudio(pool: CredentialPool, g: Gemini, chunks: seq<AudioArg>, ghost log0: seq<SttLlm.Event>)
    returns (all: seq<Record>, ghost log: seq<SttLlm.Event>)
    requires pool.Valid()
    modifies pool
    ensures pool.Valid()
    ensures (all, State(pool.index, log)) == SplitAudioResults(g, chunks, |pool.keys|, State(old(pool.index), log0))
  {
    ghost var st0 := State(pool.index, log0);
    all := [];
    log := log0;
    for i := 0 to |chunks|
      invariant pool.Valid()
      invariant (all, State(pool.index, log)) == SplitAudioResults(g, chunks[..i], |pool.keys|, st0)
    {
      assert chunks[..i + 1][..i] == chunks[..i];
      var result;
      result, log := TranscribeUnsplit(pool, g, One(chunks[i]), 3, log);
      if result.Success? {
        var named := NameMissing(result.value, chunks[i], i);
        all := all + named;
      }
    }
    assert chunks[..|chunks|] == chunks;
  }
}
