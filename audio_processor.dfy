/** The orchestrator (sources/core/audio_processor.py): transcribe an
    audio file, join the transcript, align it with the audio, and merge
    each aligned chunk into the transcription result at the same position.

    `convert_to_mono` (pydub's decode, `set_channels` and `export`) is an
    oracle from the audio argument to the exported WAV bytes. */
module AudioProcessor {
  import opened Common
  import opened Strings
  import opened Credentials
  import SttLlm
  import TextAligner

  /** A result dictionary as a mutable object: `dict.update` changes it
      where every list holding it can see the change. */
  class Dict {
    var entries: Record

    constructor (entries: Record)
      ensures this.entries == entries
    {
      this.entries := entries;
    }
  }

  // ---------------------------------------------------------------------
  // extract_transcript_text

  /** What one record contributes: its `text`, if it has one. */
  function Picked(r: Record): seq<Field> {
    if "text" in r then [r["text"]] else []
  }

  /** `[r["text"] for r in results if "text" in r]`, in order. */
  function TextValues(results: seq<Record>): (vs: seq<Field>)
    ensures |vs| <= |results|
  {
    if results == [] then [] else Picked(results[0]) + TextValues(results[1..])
  }

  /** The values picked from `a + b` are those picked from `a`, then those
      picked from `b`: order is kept and nothing is picked twice. */
  lemma {:induction false} TextValuesAppend(a: seq<Record>, b: seq<Record>)
    ensures TextValues(a + b) == TextValues(a) + TextValues(b)
    decreases |a|
  {
    if a == [] {
      assert a + b == b;
    } else {
      assert (a + b)[0] == a[0];
      assert (a + b)[1..] == a[1..] + b;
      TextValuesAppend(a[1..], b);
      assert TextValues(a + b) == Picked(a[0]) + TextValues(a[1..] + b);
    }
  }

  /** A single record contributes its `text` when it has one, else nothing. */
  lemma TextValuesSingle(r: Record)
    ensures "text" in r ==> TextValues([r]) == [r["text"]]
    ensures "text" !in r ==> TextValues([r]) == []
  {
    assert [r][1..] == [];
  }

  /** The strings of `vs`, or the index of the first value that is not a
      string (where `str.join` raises). */
  function Strs(vs: seq<Field>): (r: Result<seq<string>, nat>)
    ensures r.Success? ==> |r.value| == |vs| && forall i :: 0 <= i < |vs| ==> vs[i] == Text(r.value[i])
    ensures r.Failure? ==> r.error < |vs| && !vs[r.error].Text? && forall j :: 0 <= j < r.error ==> vs[j].Text?
  {
    if vs == [] then Success([])
    else if !vs[0].Text? then Failure(0)
    else match Strs(vs[1..])
      case Success(rest) => Success([vs[0].s] + rest)
      case Failure(i) => Failure(i + 1)
  }

  /** `"\n".join(...)` raising on a value that is not a string. */
  function JoinError(i: nat): Exception {
    Exception(TypeError, "sequence item " + NatToString(i) + ": expected str instance, AudioSegment found")
  }

  /** `extract_transcript_text`: the `text` of every record that has one,
      in order, joined with newlines. */
  function ExtractTranscriptText(results: seq<Record>): Result<string, Exception> {
    match Strs(TextValues(results))
    case Success(lines) => Success(Join(lines, "\n"))
    case Failure(i) => Failure(JoinError(i))
  }

  /** Nothing is lost in the join: when the picked texts hold no newline,
      splitting the transcript on newlines gives them back, in order. */
  lemma ExtractSplitsBack(results: seq<Record>, lines: seq<string>)
    requires Strs(TextValues(results)) == Success(lines)
    requires |lines| > 0 && forall i :: 0 <= i < |lines| ==> '\n' !in lines[i]
    ensures ExtractTranscriptText(results).Success?
    ensures Split(ExtractTranscriptText(results).value, '\n') == lines
  {
    JoinSplitRoundTrip(lines, '\n');
  }

  /** A join is empty exactly when it joins nothing or one empty string. */
  lemma {:induction false} JoinEmpty(xs: seq<string>, sep: string)
    requires |sep| > 0
    ensures Join(xs, sep) == "" <==> xs == [] || xs == [""]
  {
    if |xs| > 1 {
      assert |Join(xs, sep)| >= |sep|;
    }
  }

  /** The transcript is empty, and the pipeline stops early, exactly when
      no record has a `text` or the only one there is is "". */
  lemma ExtractEmpty(results: seq<Record>)
    ensures ExtractTranscriptText(results) == Success("")
            <==> TextValues(results) == [] || TextValues(results) == [Text("")]
  {
    var vs := TextValues(results);
    match Strs(vs)
    case Success(lines) =>
      JoinEmpty(lines, "\n");
      if lines == [""] {
        assert vs == [Text("")];
      }
      if vs == [Text("")] {
        assert lines == [""];
      }
    case Failure(i) =>
  }

  /** A record whose `text` is not a string makes the join raise a
      TypeError naming its position among the picked texts. */
  lemma ExtractTypeError(results: seq<Record>, i: nat)
    requires i < |TextValues(results)| && !TextValues(results)[i].Text?
    requires forall j :: 0 <= j < i ==> TextValues(results)[j].Text?
    ensures ExtractTranscriptText(results) == Failure(JoinError(i))
  {
  }

  // ---------------------------------------------------------------------
  // combine_transcription_with_alignment

  /** The entries of `d` after `ds[i].update(updates[i])` for every `i`,
      in order, starting from `e`: every position that holds `d` itself
      applies its update to the same dictionary. */
  function Updated(e: Record, ds: seq<Dict>, d: Dict, updates: seq<Record>): Record
    requires |ds| <= |updates|
    decreases |ds|
  {
    if ds == [] then e
    else
      var prior := Updated(e, ds[..|ds| - 1], d, updates);
      if ds[|ds| - 1] == d then prior + updates[|ds| - 1] else prior
  }

  /** The merge as values: position `i` is the transcription record with
      the aligned record's keys written over it. */
  function Merged(transcriptions: seq<Record>, aligned: seq<Record>): seq<Record> {
    seq(Min(|transcriptions|, |aligned|), i requires 0 <= i < Min(|transcriptions|, |aligned|) =>
      transcriptions[i] + aligned[i])
  }

  /** `combine_transcription_with_alignment`: the copy of the list is
      shallow, so every `update` lands in the caller's dictionaries; the
      first `min(len(transcriptions), len(aligned))` of them are returned. */
  method CombineTranscriptionWithAlignment(transcriptions: seq<Dict>, aligned: seq<Record>)
    returns (combined: seq<Dict>)
    modifies set d | d in transcriptions
    ensures combined == transcriptions[..Min(|transcriptions|, |aligned|)]
    ensures forall d :: d in transcriptions ==> d.entries == Updated(old(d.entries), combined, d, aligned)
  {
    var minLength := Min(|transcriptions|, |aligned|);
    for i := 0 to minLength
      invariant forall d :: d in transcriptions ==> d.entries == Updated(old(d.entries), transcriptions[..i], d, aligned)
    {
      var target := transcriptions[i];
      target.entries := target.entries + aligned[i];
      assert transcriptions[..i + 1][..i] == transcriptions[..i];
    }
    combined := transcriptions[..minLength];
  }

  /** A dictionary at no position is left as it was. */
  lemma {:induction false} UpdatedAbsent(e: Record, ds: seq<Dict>, d: Dict, updates: seq<Record>)
    requires |ds| <= |updates| && d !in ds
    ensures Updated(e, ds, d, updates) == e
    decreases |ds|
  {
    if ds != [] {
      UpdatedAbsent(e, ds[..|ds| - 1], d, updates);
    }
  }

  /** A dictionary at exactly one position `k` gets exactly that update. */
  lemma {:induction false} UpdatedOnce(e: Record, ds: seq<Dict>, k: nat, updates: seq<Record>)
    requires |ds| <= |updates| && k < |ds|
    requires forall j :: 0 <= j < |ds| && j != k ==> ds[j] != ds[k]
    ensures Updated(e, ds, ds[k], updates) == e + updates[k]
    decreases |ds|
  {
    var last := |ds| - 1;
    if k == last {
      UpdatedAbsent(e, ds[..last], ds[k], updates);
    } else {
      UpdatedOnce(e, ds[..last], k, updates);
    }
  }

  /** When no dictionary occurs twice among the merged positions, the
      caller's dictionaries end up holding exactly the value merge. */
  lemma CombineDistinct(ds: seq<Dict>, before: seq<Record>, after: seq<Record>, aligned: seq<Record>)
    requires |before| == |ds| && |after| == Min(|ds|, |aligned|)
    requires forall i, j :: 0 <= i < j < |ds| ==> ds[i] != ds[j]
    requires forall i :: 0 <= i < |after| ==> after[i] == Updated(before[i], ds[..|after|], ds[i], aligned)
    ensures after == Merged(before, aligned)
  {
    var m := |after|;
    forall i | 0 <= i < m
      ensures after[i] == before[i] + aligned[i]
    {
      UpdatedOnce(before[i], ds[..m], i, aligned);
    }
  }

  /** Aliasing shows: the same dictionary at positions 0 and 1 receives
      both updates, and both positions of the result show the sum. */
  lemma CombineAliased(d: Dict, e: Record, a0: Record, a1: Record)
    ensures Updated(e, [d, d], d, [a0, a1]) == e + a0 + a1
  {
    var u := [a0, a1];
    assert [d][..0] == [];
    assert Updated(e, [d], d, u) == e + a0;
    assert [d, d][..1] == [d];
  }

  /** Every merged record has the keys of both, and the aligned values win,
      `text` included. */
  lemma MergedKeys(transcriptions: seq<Record>, aligned: seq<Record>, i: nat)
    requires i < Min(|transcriptions|, |aligned|)
    ensures |Merged(transcriptions, aligned)| == Min(|transcriptions|, |aligned|)
    ensures Merged(transcriptions, aligned)[i].Keys == transcriptions[i].Keys + aligned[i].Keys
    ensures forall k :: k in aligned[i] ==> Merged(transcriptions, aligned)[i][k] == aligned[i][k]
    ensures forall k :: k in transcriptions[i] && k !in aligned[i] ==>
              Merged(transcriptions, aligned)[i][k] == transcriptions[i][k]
  {
    assert Merged(transcriptions, aligned)[i] == transcriptions[i] + aligned[i];
  }

  // ---------------------------------------------------------------------
  // process_audio_with_alignment

  const BadAudio := Exception(ValueError, "audio_file phải là đường dẫn (str) hoặc BytesIO object")
  const BadFolder := Exception(ValueError, "save_folder phải là None hoặc string")
  const MonoPrefix := "Không thể chuyển đổi audio sang mono: "
  const TranscribePrefix := "Không thể phiên âm audio: "
  const AlignPrefix := "Không thể căn chỉnh text với audio: "

  /** The dynamic type of the `save_folder` argument. */
  datatype FolderArg = NoFolder | Folder(path: string) | NotAString

  function SaveFolder(folder: FolderArg): Option<string> {
    if folder.Folder? then Some(folder.path) else None
  }

  /** `convert_to_mono`: `mono` decodes the argument, keeps one channel and
      exports WAV bytes; the result is a new unnamed buffer, and a failure
      is re-raised as a ValueError. */
  function ConvertToMono(file: AudioArg, mono: AudioArg -> Result<seq<byte>, Exception>): Result<AudioArg, Exception> {
    match mono(file)
    case Success(wav) => Success(BufferArg(wav, None))
    case Failure(e) => Failure(Exception(ValueError, MonoPrefix + e.message))
  }

  /** The audio argument every later stage sees: a BytesIO is first copied
      into a new buffer (which has no `.name`), then replaced by its mono
      version; when the conversion fails the copy, or the path, is kept. */
  function Prepared(file: AudioArg, mono: AudioArg -> Result<seq<byte>, Exception>): AudioArg {
    var copy := if file.BufferArg? then BufferArg(file.data, None) else file;
    match ConvertToMono(copy, mono)
    case Success(converted) => converted
    case Failure(_) => copy
  }

  /** What `transcribe_audio` returns, with the key cursor it leaves. */
  function Transcribed(remote: SttLlm.Remote, io: SttLlm.Io, file: AudioArg, maxRetries: int, model: string,
                       count: nat, start: nat): (Result<seq<Record>, Exception>, nat)
    requires count > 0
  {
    var (r, _, key) := SttLlm.TranscriptAudioSpec(remote, io, file, maxRetries, model, count, start);
    match r
    case Success(results) => (Success(results), key)
    case Failure(e) => (Failure(Exception(RuntimeError, TranscribePrefix + e.message)), key)
  }

  /** `transcribe_audio`: any exception of the client becomes a RuntimeError
      carrying its message. */
  method TranscribeAudio(pool: CredentialPool, remote: SttLlm.Remote, io: SttLlm.Io, file: AudioArg,
                         maxRetries: int, model: string)
    returns (r: Result<seq<Record>, Exception>)
    requires pool.Valid()
    modifies pool
    ensures pool.Valid()
    ensures (r, pool.index) == Transcribed(remote, io, file, maxRetries, model, |pool.keys|, old(pool.index))
  {
    var results, _ := SttLlm.TranscriptAudio(pool, remote, io, file, maxRetries, model);
    if results.Failure? {
      r := Failure(Exception(RuntimeError, TranscribePrefix + results.error.message));
    } else {
      r := results;
    }
  }

  /** What `align_audio_with_text` returns. */
  function Aligned(text: string, file: AudioArg, saveFolder: Option<string>, leading: int, trailing: int,
                   w: TextAligner.Whisper): Result<seq<Record>, Exception>
  {
    match TextAligner.GetAudioChunksSpec(TextAligner.Single(text), file, saveFolder, leading, trailing, w)
    case Success(chunks) => Success(chunks)
    case Failure(e) => Failure(Exception(ValueError, AlignPrefix + e.message))
  }

  /** `align_audio_with_text`: any exception of the cutter becomes a
      ValueError carrying its message. */
  method AlignAudioWithText(text: string, file: AudioArg, saveFolder: Option<string>, leading: int, trailing: int,
                            w: TextAligner.Whisper)
    returns (r: Result<seq<Record>, Exception>)
    ensures r == Aligned(text, file, saveFolder, leading, trailing, w)
  {
    var chunks := TextAligner.GetAudioChunks(TextAligner.Single(text), file, saveFolder, leading, trailing, w);
    if chunks.Failure? {
      r := Failure(Exception(ValueError, AlignPrefix + chunks.error.message));
    } else {
      r := chunks;
    }
  }

  /** What `process_audio_with_alignment` returns, with the key cursor it
      leaves: argument checks, mono conversion, transcription, the early
      return on an empty transcript, alignment, merge. */
  function ProcessSpec(remote: SttLlm.Remote, io: SttLlm.Io, w: TextAligner.Whisper,
                       mono: AudioArg -> Result<seq<byte>, Exception>, file: AudioArg,
                       leading: int, trailing: int, folder: FolderArg, maxRetries: int, model: string,
                       count: nat, start: nat): (Result<seq<Record>, Exception>, nat)
    requires count > 0
  {
    if !IsPathOrBuffer(file) then (Failure(BadAudio), start)
    else if folder.NotAString? then (Failure(BadFolder), start)
    else
      var input := Prepared(file, mono);
      var (t, key) := Transcribed(remote, io, input, maxRetries, model, count, start);
      match t
      case Failure(e) => (Failure(e), key)
      case Success(results) =>
        match ExtractTranscriptText(results)
        case Failure(e) => (Failure(e), key)
        case Success(text) =>
          if text == "" then (Success(results), key)
          else
            match Aligned(text, input, SaveFolder(folder), leading, trailing, w)
            case Failure(e) => (Failure(e), key)
            case Success(chunks) => (Success(Merged(results, chunks)), key)
  }

  /** The dictionaries `json.loads` hands back: one new object per record. */
  method NewDicts(results: seq<Record>) returns (dicts: seq<Dict>)
    ensures |dicts| == |results|
    ensures forall i :: 0 <= i < |dicts| ==> fresh(dicts[i]) && dicts[i].entries == results[i]
    ensures forall i, j :: 0 <= i < j < |dicts| ==> dicts[i] != dicts[j]
  {
    dicts := [];
    for i := 0 to |results|
      invariant |dicts| == i
      invariant forall k :: 0 <= k < i ==> fresh(dicts[k]) && dicts[k].entries == results[k]
      invariant forall k, j :: 0 <= k < j < i ==> dicts[k] != dicts[j]
    {
      var d := new Dict(results[i]);
      dicts := dicts + [d];
    }
  }

  /** The records the caller sees in the returned list: the source returns
      the dictionary objects themselves, and this reads out what each one
      holds once the merge has updated it in place. */
  method Contents(ds: seq<Dict>) returns (es: seq<Record>)
    ensures |es| == |ds| && forall i :: 0 <= i < |ds| ==> es[i] == ds[i].entries
  {
    es := [];
    for i := 0 to |ds|
      invariant |es| == i && forall k :: 0 <= k < i ==> es[k] == ds[k].entries
    {
      es := es + [ds[i].entries];
    }
  }

  /** `process_audio_with_alignment`. */
  method ProcessAudioWithAlignment(pool: CredentialPool, remote: SttLlm.Remote, io: SttLlm.Io, w: TextAligner.Whisper,
                                   mono: AudioArg -> Result<seq<byte>, Exception>, file: AudioArg,
                                   leading: int, trailing: int, folder: FolderArg, maxRetries: int, model: string)
    returns (r: Result<seq<Record>, Exception>)
    requires pool.Valid()
    modifies pool
    ensures pool.Valid()
    ensures (r, pool.index) == ProcessSpec(remote, io, w, mono, file, leading, trailing, folder, maxRetries, model,
                                           |pool.keys|, old(pool.index))
  {
    if !IsPathOrBuffer(file) {
      return Failure(BadAudio);
    }
    if folder.NotAString? {
      return Failure(BadFolder);
    }
    var input := file;
    if input.BufferArg? {
      input := BufferArg(input.data, None);
    }
    var converted := ConvertToMono(input, mono);
    if converted.Success? {
      input := converted.value;
    }
    assert input == Prepared(file, mono);
    var transcribed := TranscribeAudio(pool, remote, io, input, maxRetries, model);
    if transcribed.Failure? {
      return transcribed;
    }
    var results := transcribed.value;
    var text := ExtractTranscriptText(results);
    if text.Failure? {
      return Failure(text.error);
    }
    if text.value == "" {
      return Success(results);
    }
    var aligned := AlignAudioWithText(text.value, input, SaveFolder(folder), leading, trailing, w);
    if aligned.Failure? {
      return Failure(aligned.error);
    }
    var dicts := NewDicts(results);
    var combined := CombineTranscriptionWithAlignment(dicts, aligned.value);
    var merged := Contents(combined);
    CombineDistinct(dicts, results, merged, aligned.value);
    r := Success(merged);
  }

  /** The arguments are checked before any work: the wrong audio type or
      a `save_folder` that is neither None nor a string raise ValueError,
      and the key cursor does not move. */
  lemma ProcessRejects(remote: SttLlm.Remote, io: SttLlm.Io, w: TextAligner.Whisper,
                       mono: AudioArg -> Result<seq<byte>, Exception>, file: AudioArg,
                       leading: int, trailing: int, folder: FolderArg, maxRetries: int, model: string,
                       count: nat, start: nat)
    requires count > 0
    ensures var (r, key) := ProcessSpec(remote, io, w, mono, file, leading, trailing, folder, maxRetries, model, count, start);
            && (!IsPathOrBuffer(file) ==> r == Failure(BadAudio) && key == start)
            && (IsPathOrBuffer(file) && folder.NotAString? ==> r == Failure(BadFolder) && key == start)
  {
  }

  /** The later stages see the mono WAV buffer when the conversion works,
      and otherwise the input itself (a BytesIO as its unnamed copy). */
  lemma PreparedInput(file: AudioArg, mono: AudioArg -> Result<seq<byte>, Exception>)
    requires IsPathOrBuffer(file)
    ensures var copy := if file.BufferArg? then BufferArg(file.data, None) else file;
            && (mono(copy).Success? ==> Prepared(file, mono) == BufferArg(mono(copy).value, None))
            && (mono(copy).Failure? ==> Prepared(file, mono) == copy)
            && (mono(copy).Failure? && file.PathArg? ==> Prepared(file, mono) == file)
            && IsPathOrBuffer(Prepared(file, mono))
  {
  }

  /** A failed transcription is re-raised as a RuntimeError whose message
      is the prefix and the client's message; the aligner is not reached,
      so the result does not depend on it. */
  lemma ProcessTranscribeFailure(remote: SttLlm.Remote, io: SttLlm.Io, w: TextAligner.Whisper, w': TextAligner.Whisper,
                                 mono: AudioArg -> Result<seq<byte>, Exception>, file: AudioArg,
                                 leading: int, trailing: int, folder: FolderArg, maxRetries: int, model: string,
                                 count: nat, start: nat, e: Exception)
    requires count > 0 && IsPathOrBuffer(file) && !folder.NotAString?
    requires SttLlm.TranscriptAudioSpec(remote, io, Prepared(file, mono), maxRetries, model, count, start).0 == Failure(e)
    ensures var (r, key) := ProcessSpec(remote, io, w, mono, file, leading, trailing, folder, maxRetries, model, count, start);
            && r == Failure(Exception(RuntimeError, TranscribePrefix + e.message))
            && key == SttLlm.TranscriptAudioSpec(remote, io, Prepared(file, mono), maxRetries, model, count, start).2
            && (r, key) == ProcessSpec(remote, io, w', mono, file, leading, trailing, folder, maxRetries, model, count, start)
  {
  }

  /** An empty transcript returns the transcription results unchanged
      without calling the aligner: whatever the aligner would do, the
      result is the same. */
  lemma ProcessEmptyText(remote: SttLlm.Remote, io: SttLlm.Io, w: TextAligner.Whisper, w': TextAligner.Whisper,
                         mono: AudioArg -> Result<seq<byte>, Exception>, file: AudioArg,
                         leading: int, trailing: int, folder: FolderArg, maxRetries: int, model: string,
                         count: nat, start: nat, results: seq<Record>)
    requires count > 0 && IsPathOrBuffer(file) && !folder.NotAString?
    requires SttLlm.TranscriptAudioSpec(remote, io, Prepared(file, mono), maxRetries, model, count, start).0 == Success(results)
    requires TextValues(results) == [] || TextValues(results) == [Text("")]
    ensures var (r, key) := ProcessSpec(remote, io, w, mono, file, leading, trailing, folder, maxRetries, model, count, start);
            && r == Success(results)
            && (r, key) == ProcessSpec(remote, io, w', mono, file, leading, trailing, folder, maxRetries, model, count, start)
  {
    ExtractEmpty(results);
  }

  /** A failed alignment is re-raised as a ValueError whose message is the
      prefix and the cutter's message. */
  lemma ProcessAlignFailure(remote: SttLlm.Remote, io: SttLlm.Io, w: TextAligner.Whisper,
                            mono: AudioArg -> Result<seq<byte>, Exception>, file: AudioArg,
                            leading: int, trailing: int, folder: FolderArg, maxRetries: int, model: string,
                            count: nat, start: nat, results: seq<Record>, text: string, e: Exception)
    requires count > 0 && IsPathOrBuffer(file) && !folder.NotAString?
    requires SttLlm.TranscriptAudioSpec(remote, io, Prepared(file, mono), maxRetries, model, count, start).0 == Success(results)
    requires ExtractTranscriptText(results) == Success(text) && text != ""
    requires TextAligner.GetAudioChunksSpec(TextAligner.Single(text), Prepared(file, mono), SaveFolder(folder),
                                            leading, trailing, w) == Failure(e)
    ensures ProcessSpec(remote, io, w, mono, file, leading, trailing, folder, maxRetries, model, count, start).0
            == Failure(Exception(ValueError, AlignPrefix + e.message))
  {
  }

  /** When every stage succeeds, the result is the positional merge: as
      long as the shorter list, each record the transcription record with
      the chunk's keys written over it; the chunk's `text` wins. */
  lemma ProcessMerged(remote: SttLlm.Remote, io: SttLlm.Io, w: TextAligner.Whisper,
                      mono: AudioArg -> Result<seq<byte>, Exception>, file: AudioArg,
                      leading: int, trailing: int, folder: FolderArg, maxRetries: int, model: string,
                      count: nat, start: nat, results: seq<Record>, text: string, chunks: seq<Record>)
    requires count > 0 && IsPathOrBuffer(file) && !folder.NotAString?
    requires SttLlm.TranscriptAudioSpec(remote, io, Prepared(file, mono), maxRetries, model, count, start).0 == Success(results)
    requires ExtractTranscriptText(results) == Success(text) && text != ""
    requires TextAligner.GetAudioChunksSpec(TextAligner.Single(text), Prepared(file, mono), SaveFolder(folder),
                                            leading, trailing, w) == Success(chunks)
    ensures var r := ProcessSpec(remote, io, w, mono, file, leading, trailing, folder, maxRetries, model, count, start).0;
            && r.Success?
            && |r.value| == Min(|results|, |chunks|)
            && forall i :: 0 <= i < |r.value| ==>
                 && r.value[i].Keys == results[i].Keys + chunks[i].Keys
                 && ("text" in chunks[i] ==> r.value[i]["text"] == chunks[i]["text"])
                 && ("text" !in chunks[i] && "text" in results[i] ==> r.value[i]["text"] == results[i]["text"])
  {
    var r := Merged(results, chunks);
    forall i | 0 <= i < |r|
      ensures r[i].Keys == results[i].Keys + chunks[i].Keys
      ensures "text" in chunks[i] ==> r[i]["text"] == chunks[i]["text"]
      ensures "text" !in chunks[i] && "text" in results[i] ==> r[i]["text"] == results[i]["text"]
    {
      MergedKeys(results, chunks, i);
    }
  }
}
