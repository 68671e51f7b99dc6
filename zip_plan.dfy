/** The in-memory archive of the labelling demo
    (sources/demo/utils/zip_utils.py, `create_zip_from_audio_chunks`): the
    ordered entries written for a list of chunk dictionaries. Compression,
    the WAV export and the JSON text are the libraries' business; an entry
    records its name and what it was made from. */
module ZipPlan {
  import opened Common
  import opened Strings

  /** What an entry is written from. */
  datatype Payload =
    | Wav(audio: Audio)              // `chunk['audio'].export(..., format="wav")`
    | TextData(text: string)         // `chunk['text']`, UTF-8 encoded
    | Json(records: seq<Record>)     // `json.dumps(metadata, ...)`

  datatype Entry = Entry(name: string, payload: Payload)

  const PathTypeError := Exception(TypeError, "expected str, bytes or os.PathLike object, not AudioSegment")
  const NoExport := Exception(AttributeError, "'str' object has no attribute 'export'")
  const NotBytes := Exception(TypeError, "a bytes-like object is required, not 'AudioSegment'")
  const NotSerializable := Exception(TypeError, "Object of type AudioSegment is not JSON serializable")

  // ---------------------------------------------------------------------
  // os.path.splitext

  /** The index of the last `c` in `s`, or -1. */
  function LastIndex(s: string, c: char): (r: int)
    ensures -1 <= r < |s|
    ensures r >= 0 ==> s[r] == c
    ensures forall k :: r < k < |s| ==> s[k] != c
    decreases |s|
  {
    if s == [] then -1
    else if s[|s| - 1] == c then |s| - 1
    else LastIndex(s[..|s| - 1], c)
  }

  /** `os.path.splitext(p)` on POSIX: the extension starts at the last dot
      of the last path component, unless only dots precede it there. */
  function SplitExt(p: string): (r: (string, string))
    ensures r.0 + r.1 == p
  {
    var sep := LastIndex(p, '/');
    var dot := LastIndex(p, '.');
    if dot > sep && exists k :: sep < k < dot && p[k] != '.' then (p[..dot], p[dot..])
    else (p, [])
  }

  /** The extension is empty, or a dot followed by neither a dot nor a
      slash. */
  lemma SplitExtShape(p: string)
    ensures var ext := SplitExt(p).1;
            ext == [] || (ext[0] == '.' && forall k :: 0 < k < |ext| ==> ext[k] != '.' && ext[k] != '/')
  {
    var sep := LastIndex(p, '/');
    var dot := LastIndex(p, '.');
    if dot > sep && exists k :: sep < k < dot && p[k] != '.' {
      var ext := p[dot..];
      forall k | 0 < k < |ext|
        ensures ext[k] != '.' && ext[k] != '/'
      {
        assert ext[k] == p[dot + k];
      }
    }
  }

  /** A last component with something other than dots before the
      extension: splitting `base + "." + ext` gives the two back. */
  lemma SplitExtRoundTrip(base: string, ext: string)
    requires '.' !in ext && '/' !in ext
    requires exists k :: LastIndex(base, '/') < k < |base| && base[k] != '.'
    ensures SplitExt(base + "." + ext) == (base, "." + ext)
  {
    var suffix := "." + ext;
    var p := base + suffix;
    assert base + "." + ext == p;
    var dot := |base|;
    DotIsLast(base, ext);
    assert '/' !in suffix;
    LastIndexPrefix(base, suffix, '/');
    var sep := LastIndex(base, '/');
    var k :| sep < k < |base| && base[k] != '.';
    assert p[k] == base[k];
    assert p[..dot] == base && p[dot..] == suffix;
  }

  /** In `base + "." + ext` with no dot in `ext`, the last dot is the one
      added. */
  lemma DotIsLast(base: string, ext: string)
    requires '.' !in ext
    ensures LastIndex(base + "." + ext, '.') == |base|
  {
    var a := base + ".";
    LastIndexPrefix(a, ext, '.');
    assert a[|a| - 1] == '.';
  }

  /** The last occurrence is the one no later occurrence follows. */
  lemma {:induction false} LastIndexAt(s: string, c: char, i: nat)
    requires i < |s| && s[i] == c
    requires forall k :: i < k < |s| ==> s[k] != c
    ensures LastIndex(s, c) == i
    decreases |s|
  {
    if i < |s| - 1 {
      LastIndexAt(s[..|s| - 1], c, i);
    }
  }

  /** A suffix without `c` leaves the last occurrence where it was. */
  lemma {:induction false} LastIndexPrefix(a: string, b: string, c: char)
    requires c !in b
    ensures LastIndex(a + b, c) == LastIndex(a, c)
    decreases |b|
  {
    if b == [] {
      assert a + b == a;
    } else {
      assert (a + b)[..|a + b| - 1] == a + b[..|b| - 1];
      LastIndexPrefix(a, b[..|b| - 1], c);
    }
  }

  /** The default name `chunk_{i}.wav` gives the entry base `chunk_{i}`. */
  lemma DefaultBase(i: nat)
    ensures SplitExt("chunk_" + IntToString(i) + ".wav").0 == "chunk_" + IntToString(i)
  {
    var base := "chunk_" + IntToString(i);
    assert base[0] == 'c';
    LastIndexNone(base, '/');
    assert "chunk_" + IntToString(i) + ".wav" == base + "." + "wav";
    SplitExtRoundTrip(base, "wav");
  }

  lemma LastIndexNone(s: string, c: char)
    requires forall k :: 0 <= k < |s| ==> s[k] != c
    ensures LastIndex(s, c) == -1
  {
  }

  // ---------------------------------------------------------------------
  // The entry plan

  /** The name a chunk is filed under: its `filename`, else `chunk_{i}.wav`. */
  function ChunkName(chunk: Record, i: nat): Field {
    if "filename" in chunk then chunk["filename"] else Text("chunk_" + IntToString(i) + ".wav")
  }

  /** The audio entry of a chunk: written when asked for and present; a
      value that is text has no `export`. */
  function AudioPart(chunk: Record, base: string, includeAudio: bool): Result<seq<Entry>, Exception> {
    if includeAudio && "audio" in chunk then
      if chunk["audio"].Text? then Failure(NoExport) else Success([Entry(base + ".wav", Wav(chunk["audio"].audio))])
    else Success([])
  }

  /** The text entry of a chunk: written when asked for and present; a
      value that is audio is not bytes. */
  function TextPart(chunk: Record, base: string, includeText: bool): Result<seq<Entry>, Exception> {
    if includeText && "text" in chunk then
      if chunk["text"].Clip? then Failure(NotBytes) else Success([Entry(base + ".txt", TextData(chunk["text"].s))])
    else Success([])
  }

  /** The entries written for chunk `i`: its audio, then its text, each only
      when asked for and present; a value of the wrong type raises. */
  function ChunkEntries(chunk: Record, i: nat, includeAudio: bool, includeText: bool): Result<seq<Entry>, Exception> {
    var name := ChunkName(chunk, i);
    if name.Clip? then Failure(PathTypeError)
    else EntriesAt(chunk, SplitExt(name.s).0, includeAudio, includeText)
  }

  /** The entries of a chunk whose name without extension is `base`. */
  function EntriesAt(chunk: Record, base: string, includeAudio: bool, includeText: bool): Result<seq<Entry>, Exception> {
    var audio := AudioPart(chunk, base, includeAudio);
    if audio.Failure? then audio
    else
      var text := TextPart(chunk, base, includeText);
      if text.Failure? then text else Success(audio.value + text.value)
  }

  /** `step` run over the chunks with their indices, in order; the entries
      are concatenated and the first error stops it. */
  function Indexed(step: (Record, nat) -> Result<seq<Entry>, Exception>, chunks: seq<Record>): Result<seq<Entry>, Exception>
    decreases |chunks|
  {
    if chunks == [] then Success([])
    else
      var prev := Indexed(step, chunks[..|chunks| - 1]);
      if prev.Failure? then prev
      else
        var last := step(chunks[|chunks| - 1], |chunks| - 1);
        if last.Failure? then last else Success(prev.value + last.value)
  }

  /** The entries for all chunks in order; the first error stops it. */
  function ChunksEntries(chunks: seq<Record>, includeAudio: bool, includeText: bool): Result<seq<Entry>, Exception> {
    Indexed((c: Record, i: nat) => ChunkEntries(c, i, includeAudio, includeText), chunks)
  }

  /** The metadata: a copy of each chunk without its `audio`. */
  function MetadataOf(chunks: seq<Record>): (m: seq<Record>)
    ensures |m| == |chunks|
    ensures forall i :: 0 <= i < |m| ==>
              && m[i].Keys == chunks[i].Keys - {"audio"}
              && forall k :: k in m[i] ==> m[i][k] == chunks[i][k]
  {
    seq(|chunks|, i requires 0 <= i < |chunks| => chunks[i] - {"audio"})
  }

  /** `json.dumps` accepts the records: every value left is a string. */
  predicate Serializable(records: seq<Record>) {
    forall i, k :: 0 <= i < |records| && k in records[i] ==> records[i][k].Text?
  }

  /** `create_zip_from_audio_chunks`, as the list of entries written. */
  function Plan(chunks: seq<Record>, includeAudio: bool, includeText: bool, includeMetadata: bool)
    : Result<seq<Entry>, Exception>
  {
    var entries := ChunksEntries(chunks, includeAudio, includeText);
    if entries.Failure? || !includeMetadata then entries
    else if !Serializable(MetadataOf(chunks)) then Failure(NotSerializable)
    else Success(entries.value + [Entry("metadata.json", Json(MetadataOf(chunks)))])
  }

  /** `zipfile.ZipFile(zip_buffer, 'w')`: the entries written so far. */
  class ZipArchive {
    var entries: seq<Entry>

    constructor ()
      ensures entries == []
    {
      entries := [];
    }

    /** `zip_file.writestr(name, data)` */
    method WriteStr(name: string, payload: Payload)
      modifies this
      ensures entries == old(entries) + [Entry(name, payload)]
    {
      entries := entries + [Entry(name, payload)];
    }
  }

  /** The `if include_audio and 'audio' in chunk` block. */
  method WriteAudio(archive: ZipArchive, chunk: Record, base: string, includeAudio: bool)
    returns (error: Option<Exception>)
    modifies archive
    ensures var r := AudioPart(chunk, base, includeAudio);
            && (r.Failure? <==> error.Some?)
            && (r.Failure? ==> error.value == r.error)
            && (r.Success? ==> archive.entries == old(archive.entries) + r.value)
  {
    if includeAudio && "audio" in chunk {
      if chunk["audio"].Text? {
        return Some(NoExport);
      }
      archive.WriteStr(base + ".wav", Wav(chunk["audio"].audio));
    }
    return None;
  }

  /** The `if include_text and 'text' in chunk` block. */
  method WriteText(archive: ZipArchive, chunk: Record, base: string, includeText: bool)
    returns (error: Option<Exception>)
    modifies archive
    ensures var r := TextPart(chunk, base, includeText);
            && (r.Failure? <==> error.Some?)
            && (r.Failure? ==> error.value == r.error)
            && (r.Success? ==> archive.entries == old(archive.entries) + r.value)
  {
    if includeText && "text" in chunk {
      if chunk["text"].Clip? {
        return Some(NotBytes);
      }
      archive.WriteStr(base + ".txt", TextData(chunk["text"].s));
    }
    return None;
  }

  /** The body of the chunk loop: write one chunk's entries. */
  method WriteChunk(archive: ZipArchive, chunk: Record, i: nat, includeAudio: bool, includeText: bool)
    returns (error: Option<Exception>)
    modifies archive
    ensures var r := ChunkEntries(chunk, i, includeAudio, includeText);
            && (r.Failure? <==> error.Some?)
            && (r.Failure? ==> error.value == r.error)
            && (r.Success? ==> archive.entries == old(archive.entries) + r.value)
  {
    var filename := ChunkName(chunk, i);
    if filename.Clip? {
      return Some(PathTypeError);
    }
    var (basename, _) := SplitExt(filename.s);
    error := WriteEntries(archive, chunk, basename, includeAudio, includeText);
  }

  /** The audio block, then the text block, stopping at the first error. */
  method WriteEntries(archive: ZipArchive, chunk: Record, base: string, includeAudio: bool, includeText: bool)
    returns (error: Option<Exception>)
    modifies archive
    ensures var r := EntriesAt(chunk, base, includeAudio, includeText);
            && (r.Failure? <==> error.Some?)
            && (r.Failure? ==> error.value == r.error)
            && (r.Success? ==> archive.entries == old(archive.entries) + r.value)
  {
    error := WriteAudio(archive, chunk, base, includeAudio);
    if error.Some? {
      return;
    }
    ghost var audio := AudioPart(chunk, base, includeAudio).value;
    error := WriteText(archive, chunk, base, includeText);
    if error.None? {
      assert archive.entries == old(archive.entries) + (audio + TextPart(chunk, base, includeText).value);
    }
  }

  /** The `for chunk in audio_chunks` loop building the metadata copies. */
  method StripAudio(chunks: seq<Record>) returns (metadata: seq<Record>)
    ensures metadata == MetadataOf(chunks)
  {
    metadata := [];
    for i := 0 to |chunks|
      invariant |metadata| == i
      invariant forall j :: 0 <= j < i ==> metadata[j] == chunks[j] - {"audio"}
    {
      var copy := chunks[i];
      if "audio" in copy {
        copy := copy - {"audio"};
      }
      assert copy == chunks[i] - {"audio"};
      metadata := metadata + [copy];
    }
  }

  /** `create_zip_from_audio_chunks`: the entries of the archive, or the
      exception that interrupted writing it. */
  method CreateZipFromAudioChunks(chunks: seq<Record>, includeAudio: bool, includeText: bool, includeMetadata: bool)
    returns (r: Result<seq<Entry>, Exception>)
    ensures r == Plan(chunks, includeAudio, includeText, includeMetadata)
  {
    var archive := new ZipArchive();
    ghost var step := (c: Record, i: nat) => ChunkEntries(c, i, includeAudio, includeText);
    for i := 0 to |chunks|
      invariant Indexed(step, chunks[..i]) == Success(archive.entries)
    {
      assert chunks[..i + 1][..i] == chunks[..i];
      assert step(chunks[i], i) == ChunkEntries(chunks[i], i, includeAudio, includeText);
      var error := WriteChunk(archive, chunks[i], i, includeAudio, includeText);
      if error.Some? {
        IndexedStopped(step, chunks, i + 1);
        return Failure(error.value);
      }
    }
    assert chunks[..|chunks|] == chunks;
    if includeMetadata {
      var metadata := StripAudio(chunks);
      if !Serializable(metadata) {
        return Failure(NotSerializable);
      }
      archive.WriteStr("metadata.json", Json(metadata));
    }
    r := Success(archive.entries);
  }

  // ---------------------------------------------------------------------
  // Properties of the plan

  /** Once a prefix fails, the whole loop fails the same way. */
  lemma {:induction false} IndexedStopped(step: (Record, nat) -> Result<seq<Entry>, Exception>, chunks: seq<Record>, k: nat)
    requires k <= |chunks| && Indexed(step, chunks[..k]).Failure?
    ensures Indexed(step, chunks) == Indexed(step, chunks[..k])
    decreases |chunks| - k
  {
    if k < |chunks| {
      assert chunks[..k + 1][..k] == chunks[..k];
      IndexedStopped(step, chunks, k + 1);
    } else {
      assert chunks[..k] == chunks;
    }
  }

  /** The entries of a prefix of the chunks come first. */
  lemma {:induction false} IndexedPrefix(step: (Record, nat) -> Result<seq<Entry>, Exception>, chunks: seq<Record>, k: nat)
    requires k <= |chunks|
    ensures var r := Indexed(step, chunks);
            r.Success? ==> Indexed(step, chunks[..k]).Success? && Indexed(step, chunks[..k]).value <= r.value
    decreases |chunks| - k
  {
    if k < |chunks| {
      IndexedPrefix(step, chunks, k + 1);
      assert chunks[..k + 1][..k] == chunks[..k];
    } else {
      assert chunks[..k] == chunks;
    }
  }

  /** Entries that every step writes with a property keep it in the
      concatenation. */
  lemma {:induction false} IndexedAll(step: (Record, nat) -> Result<seq<Entry>, Exception>, chunks: seq<Record>,
                                      P: Entry -> bool)
    requires forall c, i :: step(c, i).Success? ==> forall j :: 0 <= j < |step(c, i).value| ==> P(step(c, i).value[j])
    ensures var r := Indexed(step, chunks);
            r.Success? ==> forall j :: 0 <= j < |r.value| ==> P(r.value[j])
    decreases |chunks|
  {
    if chunks != [] {
      IndexedAll(step, chunks[..|chunks| - 1], P);
    }
  }

  /** Writing chunks in order: the entries for a prefix of the chunks come
      first in the archive. */
  lemma ChunksEntriesPrefix(chunks: seq<Record>, k: nat, includeAudio: bool, includeText: bool)
    requires k <= |chunks|
    ensures var r := ChunksEntries(chunks, includeAudio, includeText);
            var p := ChunksEntries(chunks[..k], includeAudio, includeText);
            r.Success? ==> p.Success? && p.value <= r.value
  {
    IndexedPrefix((c: Record, i: nat) => ChunkEntries(c, i, includeAudio, includeText), chunks, k);
  }

  /** One chunk's entries: the audio entry `{base}.wav` exactly when audio
      is asked for and present, the text entry `{base}.txt` exactly when
      text is asked for and present, audio first. */
  lemma ChunkEntriesRules(chunk: Record, i: nat, includeAudio: bool, includeText: bool)
    ensures var r := ChunkEntries(chunk, i, includeAudio, includeText);
            var name := ChunkName(chunk, i);
            var wantAudio := includeAudio && "audio" in chunk;
            var wantText := includeText && "text" in chunk;
            && (r.Failure? <==> name.Clip? || (wantAudio && chunk["audio"].Text?) || (wantText && chunk["text"].Clip?))
            && (r.Success? ==>
                  var base := SplitExt(name.s).0;
                  && |r.value| == (if wantAudio then 1 else 0) + (if wantText then 1 else 0)
                  && (wantAudio ==> r.value[0] == Entry(base + ".wav", Wav(chunk["audio"].audio)))
                  && (wantText ==> r.value[|r.value| - 1] == Entry(base + ".txt", TextData(chunk["text"].s))))
  {
  }

  /** Every chunk entry is named `.wav` or `.txt`. */
  predicate ChunkNamed(e: Entry) {
    EndsWith(e.name, ".wav") || EndsWith(e.name, ".txt")
  }

  /** One chunk writes only `.wav` and `.txt` entries. */
  lemma ChunkEntriesNamed(chunk: Record, i: nat, includeAudio: bool, includeText: bool)
    ensures var r := ChunkEntries(chunk, i, includeAudio, includeText);
            r.Success? ==> forall j :: 0 <= j < |r.value| ==> ChunkNamed(r.value[j])
  {
    var name := ChunkName(chunk, i);
    if name.Text? {
      EntriesAtNamed(chunk, SplitExt(name.s).0, includeAudio, includeText);
    }
  }

  lemma EntriesAtNamed(chunk: Record, base: string, includeAudio: bool, includeText: bool)
    ensures var r := EntriesAt(chunk, base, includeAudio, includeText);
            r.Success? ==> forall j :: 0 <= j < |r.value| ==> ChunkNamed(r.value[j])
  {
    var audio := AudioPart(chunk, base, includeAudio);
    var text := TextPart(chunk, base, includeText);
    PartsNamed(chunk, base, includeAudio, includeText);
    if audio.Success? && text.Success? {
      AllNamedConcat(audio.value, text.value);
    }
  }

  /** The audio part writes only a `.wav` entry, the text part only a
      `.txt` one. */
  lemma PartsNamed(chunk: Record, base: string, includeAudio: bool, includeText: bool)
    ensures var a := AudioPart(chunk, base, includeAudio);
            a.Success? ==> forall j :: 0 <= j < |a.value| ==> ChunkNamed(a.value[j])
    ensures var t := TextPart(chunk, base, includeText);
            t.Success? ==> forall j :: 0 <= j < |t.value| ==> ChunkNamed(t.value[j])
  {
    EndsWithSuffix(base, ".wav");
    EndsWithSuffix(base, ".txt");
  }

  lemma AllNamedConcat(a: seq<Entry>, b: seq<Entry>)
    requires forall j :: 0 <= j < |a| ==> ChunkNamed(a[j])
    requires forall j :: 0 <= j < |b| ==> ChunkNamed(b[j])
    ensures forall j :: 0 <= j < |a + b| ==> ChunkNamed((a + b)[j])
  {
  }

  /** The loop writes only `.wav` and `.txt` entries. */
  lemma ChunksEntriesNamed(chunks: seq<Record>, includeAudio: bool, includeText: bool)
    ensures var r := ChunksEntries(chunks, includeAudio, includeText);
            r.Success? ==> forall j :: 0 <= j < |r.value| ==> ChunkNamed(r.value[j])
  {
    var step := (c: Record, i: nat) => ChunkEntries(c, i, includeAudio, includeText);
    forall c, i | step(c, i).Success?
      ensures forall j :: 0 <= j < |step(c, i).value| ==> ChunkNamed(step(c, i).value[j])
    {
      ChunkEntriesNamed(c, i, includeAudio, includeText);
    }
    IndexedAll(step, chunks, ChunkNamed);
  }

  lemma EndsWithSuffix(a: string, b: string)
    ensures EndsWith(a + b, b)
  {
    assert (a + b)[|a + b| - |b|..] == b;
  }

  /** No chunk entry is called `metadata.json`. */
  lemma MetadataNameFree(e: Entry)
    requires ChunkNamed(e)
    ensures e.name != "metadata.json"
  {
  }

  /** `metadata.json` appears exactly when asked for, as the last entry,
      and no chunk entry has that name. */
  lemma MetadataLast(chunks: seq<Record>, includeAudio: bool, includeText: bool, includeMetadata: bool)
    ensures var r := Plan(chunks, includeAudio, includeText, includeMetadata);
            r.Success? ==>
              && (includeMetadata <==> exists j :: 0 <= j < |r.value| && r.value[j].name == "metadata.json")
              && (includeMetadata ==> r.value[|r.value| - 1] == Entry("metadata.json", Json(MetadataOf(chunks))))
              && forall j :: 0 <= j < |r.value| - (if includeMetadata then 1 else 0) ==> r.value[j].name != "metadata.json"
  {
    ChunksEntriesNamed(chunks, includeAudio, includeText);
    var r := Plan(chunks, includeAudio, includeText, includeMetadata);
    if r.Success? {
      var entries := ChunksEntries(chunks, includeAudio, includeText).value;
      forall j | 0 <= j < |entries|
        ensures entries[j].name != "metadata.json"
      {
        MetadataNameFree(entries[j]);
      }
      if includeMetadata {
        assert r.value[|r.value| - 1].name == "metadata.json";
      }
    }
  }
}
