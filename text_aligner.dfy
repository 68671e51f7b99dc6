/** The chunk cutter (sources/core/text_aligner.py): align a transcript
    with its audio, cut the audio per aligned segment, pad each cut with
    silence, and return one record per segment.

    The aligner (stable-whisper's `model.align`), pydub's decoders and the
    random picks of `random.choices` are oracles. Segment bounds are
    integer milliseconds. */
module TextAligner {
  import opened Common
  import opened Strings

  /** The `text` argument: one string, or a list of lines. */
  datatype TextArg = Single(s: string) | Lines(lines: seq<string>)

  /** One aligned segment: start and end in milliseconds, and its text. */
  datatype Segment = Segment(start: nat, end: nat, text: string)

  /** What the cutter is given besides its arguments: `model.align`, the
      two ways pydub decodes (`AudioSegment.from_file` on a path and on a
      buffer of bytes), and the picks of `random.choices`: `draw(i, j)` is
      the `j`-th pick made for segment `i`. */
  datatype Whisper = Whisper(
    align: (AudioArg, string) -> Result<seq<Segment>, Exception>,
    decodeFile: string -> Result<Audio, Exception>,
    decodeBytes: seq<byte> -> Result<Audio, Exception>,
    draw: (nat, nat) -> nat)

  /** The text handed to the aligner: a list is joined with newlines. */
  function AlignedText(t: TextArg): string {
    match t
    case Single(s) => s
    case Lines(lines) => Join(lines, "\n")
  }

  /** Joining loses nothing: lines without a newline can be split back. */
  lemma AlignedTextLines(lines: seq<string>)
    requires |lines| > 0 && forall i :: 0 <= i < |lines| ==> '\n' !in lines[i]
    ensures Split(AlignedText(Lines(lines)), '\n') == lines
  {
    JoinSplitRoundTrip(lines, '\n');
  }

  const UnsupportedAudio := Exception(ValueError, "Định dạng audio không được hỗ trợ")

  /** `load_audio`: a path or a buffer is decoded by pydub; anything else
      is refused. */
  function LoadAudio(file: AudioArg, w: Whisper): (r: Result<Audio, Exception>)
    ensures file.OtherArg? ==> r == Failure(UnsupportedAudio)
    ensures file.PathArg? ==> r == w.decodeFile(file.path)
    ensures file.BufferArg? ==> r == w.decodeBytes(file.data)
    ensures file.BytesArg? ==> r == w.decodeBytes(file.bytes)
  {
    match file
    case PathArg(path) => w.decodeFile(path)
    case BufferArg(data, _) => w.decodeBytes(data)
    case BytesArg(bytes) => w.decodeBytes(bytes)
    case OtherArg => Failure(UnsupportedAudio)
  }

  /** `audio[start:end]` in pydub: both bounds are cut down to the length,
      and the slice is empty when the end comes first. */
  function Cut(audio: Audio, start: nat, end: nat): (r: Audio)
    ensures |r| <= |audio|
    ensures start <= end <= |audio| ==> r == audio[start..end]
    ensures end <= start || |audio| <= start ==> r == []
    ensures forall k :: 0 <= k < |r| ==> start + k < |audio| && r[k] == audio[start + k]
  {
    var s := Min(start, |audio|);
    var e := Min(end, |audio|);
    if s <= e then audio[s..e] else []
  }

  /** The cut with `leading` ms of silence before it and `trailing` ms
      after it, each added only when positive. */
  function Padded(cut: Audio, leading: int, trailing: int): Audio {
    var c := if leading > 0 then Silence(leading) + cut else cut;
    if trailing > 0 then c + Silence(trailing) else c
  }

  /** The padding is silence, the middle is the cut unchanged. */
  lemma PaddedShape(cut: Audio, leading: int, trailing: int)
    ensures var p := Padded(cut, leading, trailing);
            var l := if leading > 0 then leading else 0;
            var t := if trailing > 0 then trailing else 0;
            && |p| == l + |cut| + t
            && p[l..l + |cut|] == cut
            && (forall k :: 0 <= k < l ==> p[k] == 0)
            && (forall k :: l + |cut| <= k < |p| ==> p[k] == 0)
  {
    var l := if leading > 0 then leading else 0;
    var c := if leading > 0 then Silence(leading) + cut else cut;
    assert c == Silence(l) + cut;
    assert c[l..] == cut;
  }

  /** The characters `random.choices` picks from. */
  const NameAlphabet: string := "abcdefghijklmnopqrstuvwxyz0123456789"

  /** The ten random characters named for segment `i`. */
  function RandomName(draw: (nat, nat) -> nat, i: nat): (r: string)
    ensures |r| == 10 && forall k :: 0 <= k < 10 ==> r[k] in NameAlphabet
  {
    seq(10, j requires 0 <= j < 10 => NameAlphabet[draw(i, j) % |NameAlphabet|])
  }

  /** The file name of chunk `i`. */
  function ChunkName(draw: (nat, nat) -> nat, i: nat): string {
    RandomName(draw, i) + ".wav"
  }

  /** The name of the text file saved beside a chunk. */
  function SidecarName(filename: string): string {
    ReplaceAll(filename, ".wav", ".txt")
  }

  /** A chunk's text file is named like the chunk, with ".txt" in place of
      ".wav": the ten random characters hold no ".". */
  lemma SidecarOfChunk(draw: (nat, nat) -> nat, i: nat)
    ensures SidecarName(ChunkName(draw, i)) == RandomName(draw, i) + ".txt"
  {
    var name := RandomName(draw, i);
    ReplaceAllNoDot(name, 0, ".wav", ".txt");
    assert ChunkName(draw, i)[10..] == ".wav";
  }

  /** Replacing in `s[k..] + pat` when no "." occurs in `s[k..]` and the
      pattern starts with ".". */
  lemma {:induction false} ReplaceAllNoDot(s: string, k: nat, pat: string, rep: string)
    requires k <= |s| && '.' !in s && |pat| > 0 && pat[0] == '.'
    ensures ReplaceAll(s[k..] + pat, pat, rep) == s[k..] + rep
    decreases |s| - k
  {
    var t := s[k..] + pat;
    if k == |s| {
      assert t == pat && StartsWith(t, pat);
      assert t[|pat|..] == [];
    } else {
      assert t[0] == s[k] != '.';
      assert !StartsWith(t, pat);
      assert t[1..] == s[k + 1..] + pat;
      ReplaceAllNoDot(s, k + 1, pat, rep);
    }
  }

  /** The record for one segment, kept in memory. */
  function ChunkRecord(audio: Audio, seg: Segment, leading: int, trailing: int, name: string): Record {
    map["audio" := Clip(Padded(Cut(audio, seg.start, seg.end), leading, trailing)),
        "text" := Text(Strip(seg.text)),
        "filename" := Text(name)]
  }

  /** The record for one segment saved under `folder`. */
  function SavedRecord(folder: string, name: string, text: string): Record {
    map["filename" := Text(name), "text" := Text(text), "full_path" := Text(JoinPath(folder, name))]
  }

  /** The in-memory records, one per segment, in segment order. */
  function Chunks(audio: Audio, segs: seq<Segment>, leading: int, trailing: int, draw: (nat, nat) -> nat): seq<Record> {
    seq(|segs|, i requires 0 <= i < |segs| => ChunkRecord(audio, segs[i], leading, trailing, ChunkName(draw, i)))
  }

  /** The records returned when the chunks were saved under `folder`. */
  function SavedChunks(folder: string, segs: seq<Segment>, draw: (nat, nat) -> nat): seq<Record> {
    seq(|segs|, i requires 0 <= i < |segs| => SavedRecord(folder, ChunkName(draw, i), Strip(segs[i].text)))
  }

  /** `if save_folder:` */
  predicate Saving(saveFolder: Option<string>) {
    saveFolder.Some? && saveFolder.value != ""
  }

  /** What `get_audio_chunks` returns: align first (a BytesIO is read into
      bytes before), then load the audio, then one record per segment. */
  function GetAudioChunksSpec(text: TextArg, file: AudioArg, saveFolder: Option<string>,
                              leading: int, trailing: int, w: Whisper): Result<seq<Record>, Exception>
  {
    var input := if file.BufferArg? then BytesArg(file.data) else file;
    match w.align(input, AlignedText(text))
    case Failure(e) => Failure(e)
    case Success(segs) =>
      match LoadAudio(input, w)
      case Failure(e) => Failure(e)
      case Success(audio) =>
        if Saving(saveFolder) then Success(SavedChunks(saveFolder.value, segs, w.draw))
        else Success(Chunks(audio, segs, leading, trailing, w.draw))
  }

  /** One record per segment, in segment order: its text is the segment's
      text stripped, its file name ten characters of `[a-z0-9]` and
      ".wav"; in memory it holds the padded cut, saved it holds the path
      under the folder instead. */
  lemma ChunksShape(text: TextArg, file: AudioArg, saveFolder: Option<string>,
                    leading: int, trailing: int, w: Whisper, segs: seq<Segment>, audio: Audio)
    requires var input := if file.BufferArg? then BytesArg(file.data) else file;
             w.align(input, AlignedText(text)) == Success(segs) && LoadAudio(input, w) == Success(audio)
    ensures var r := GetAudioChunksSpec(text, file, saveFolder, leading, trailing, w);
            && r.Success? && |r.value| == |segs|
            && forall i :: 0 <= i < |segs| ==>
                 && r.value[i]["text"] == Text(Strip(segs[i].text))
                 && r.value[i]["filename"].Text?
                 && |r.value[i]["filename"].s| == 14
                 && EndsWith(r.value[i]["filename"].s, ".wav")
                 && (forall k :: 0 <= k < 10 ==> r.value[i]["filename"].s[k] in NameAlphabet)
                 && (Saving(saveFolder) ==>
                       r.value[i].Keys == {"filename", "text", "full_path"}
                       && r.value[i]["full_path"] == Text(JoinPath(saveFolder.value, r.value[i]["filename"].s)))
                 && (!Saving(saveFolder) ==>
                       r.value[i].Keys == {"audio", "text", "filename"}
                       && r.value[i]["audio"] == Clip(Padded(Cut(audio, segs[i].start, segs[i].end), leading, trailing)))
  {
    var r := GetAudioChunksSpec(text, file, saveFolder, leading, trailing, w);
    if Saving(saveFolder) {
      assert r == Success(SavedChunks(saveFolder.value, segs, w.draw));
      SavedShape(saveFolder.value, segs, w.draw);
    } else {
      assert r == Success(Chunks(audio, segs, leading, trailing, w.draw));
      InMemoryShape(audio, segs, leading, trailing, w.draw);
    }
  }

  /** The saved records: the name, the stripped text and the path. */
  lemma SavedShape(folder: string, segs: seq<Segment>, draw: (nat, nat) -> nat)
    ensures var v := SavedChunks(folder, segs, draw);
            |v| == |segs|
            && forall i :: 0 <= i < |segs| ==>
                 && v[i]["text"] == Text(Strip(segs[i].text))
                 && v[i]["filename"] == Text(ChunkName(draw, i))
                 && |ChunkName(draw, i)| == 14 && EndsWith(ChunkName(draw, i), ".wav")
                 && (forall k :: 0 <= k < 10 ==> ChunkName(draw, i)[k] in NameAlphabet)
                 && v[i].Keys == {"filename", "text", "full_path"}
                 && v[i]["full_path"] == Text(JoinPath(folder, ChunkName(draw, i)))
  {
    forall i | 0 <= i < |segs| {
      ChunkNameShape(draw, i);
    }
  }

  /** The in-memory records: the padded cut, the stripped text and the name. */
  lemma InMemoryShape(audio: Audio, segs: seq<Segment>, leading: int, trailing: int, draw: (nat, nat) -> nat)
    ensures var v := Chunks(audio, segs, leading, trailing, draw);
            |v| == |segs|
            && forall i :: 0 <= i < |segs| ==>
                 && v[i]["text"] == Text(Strip(segs[i].text))
                 && v[i]["filename"] == Text(ChunkName(draw, i))
                 && |ChunkName(draw, i)| == 14 && EndsWith(ChunkName(draw, i), ".wav")
                 && (forall k :: 0 <= k < 10 ==> ChunkName(draw, i)[k] in NameAlphabet)
                 && v[i].Keys == {"audio", "text", "filename"}
                 && v[i]["audio"] == Clip(Padded(Cut(audio, segs[i].start, segs[i].end), leading, trailing))
  {
    forall i | 0 <= i < |segs| {
      ChunkNameShape(draw, i);
    }
  }

  /** A chunk's file name: ten characters of the alphabet, then ".wav". */
  lemma ChunkNameShape(draw: (nat, nat) -> nat, i: nat)
    ensures |ChunkName(draw, i)| == 14 && EndsWith(ChunkName(draw, i), ".wav")
    ensures forall k :: 0 <= k < 10 ==> ChunkName(draw, i)[k] in NameAlphabet
  {
    var n := RandomName(draw, i);
    assert ChunkName(draw, i)[14 - 4..] == ".wav";
    assert forall k :: 0 <= k < 10 ==> ChunkName(draw, i)[k] == n[k];
  }

  /** A failed alignment or a failed load is what the call raises. */
  lemma ChunksFailure(text: TextArg, file: AudioArg, saveFolder: Option<string>, leading: int, trailing: int, w: Whisper)
    ensures var input := if file.BufferArg? then BytesArg(file.data) else file;
            var r := GetAudioChunksSpec(text, file, saveFolder, leading, trailing, w);
            && (w.align(input, AlignedText(text)).Failure? ==> r == Failure(w.align(input, AlignedText(text)).error))
            && (w.align(input, AlignedText(text)).Success? && file.OtherArg? ==> r == Failure(UnsupportedAudio))
  {
  }

  /** The loop over the segments: cut, pad, name, append. */
  method CutChunks(audio: Audio, segs: seq<Segment>, leading: int, trailing: int, draw: (nat, nat) -> nat)
    returns (audioChunks: seq<Record>)
    ensures audioChunks == Chunks(audio, segs, leading, trailing, draw)
  {
    audioChunks := [];
    for i := 0 to |segs|
      invariant |audioChunks| == i
      invariant forall k :: 0 <= k < i ==> audioChunks[k] == ChunkRecord(audio, segs[k], leading, trailing, ChunkName(draw, k))
    {
      var record := CutOne(audio, segs[i], leading, trailing, RandomName(draw, i) + ".wav");
      audioChunks := audioChunks + [record];
    }
  }

  /** One pass of the loop: cut the segment, pad it, pair it with its
      stripped text and its file name. */
  method CutOne(audio: Audio, seg: Segment, leading: int, trailing: int, filename: string)
    returns (record: Record)
    ensures record == ChunkRecord(audio, seg, leading, trailing, filename)
  {
    var subtitle := Strip(seg.text);
    var chunk := Cut(audio, seg.start, seg.end);
    if leading > 0 {
      chunk := Silence(leading) + chunk;
    }
    if trailing > 0 {
      chunk := chunk + Silence(trailing);
    }
    assert chunk == Padded(Cut(audio, seg.start, seg.end), leading, trailing);
    record := map["audio" := Clip(chunk), "text" := Text(subtitle), "filename" := Text(filename)];
  }

  /** The loop that saves each chunk under `folder` and keeps its name,
      text and path. */
  method SaveChunks(folder: string, audioChunks: seq<Record>)
    returns (savedFiles: seq<Record>)
    requires forall k :: 0 <= k < |audioChunks| ==>
               "filename" in audioChunks[k] && audioChunks[k]["filename"].Text? &&
               "text" in audioChunks[k] && audioChunks[k]["text"].Text?
    ensures |savedFiles| == |audioChunks|
    ensures forall k :: 0 <= k < |audioChunks| ==>
              savedFiles[k] == SavedRecord(folder, audioChunks[k]["filename"].s, audioChunks[k]["text"].s)
  {
    savedFiles := [];
    for i := 0 to |audioChunks|
      invariant |savedFiles| == i
      invariant forall k :: 0 <= k < i ==>
                  savedFiles[k] == SavedRecord(folder, audioChunks[k]["filename"].s, audioChunks[k]["text"].s)
    {
      var name := audioChunks[i]["filename"].s;
      var subtitle := audioChunks[i]["text"].s;
      var audioPath := JoinPath(folder, name);
      var record := map["filename" := Text(name), "text" := Text(subtitle), "full_path" := Text(audioPath)];
      assert record == SavedRecord(folder, name, subtitle);
      savedFiles := savedFiles + [record];
    }
  }

  /** `get_audio_chunks`: align, load, cut every segment, and save the
      chunks when a folder is given. */
  method GetAudioChunks(text: TextArg, file: AudioArg, saveFolder: Option<string>,
                        leading: int, trailing: int, w: Whisper)
    returns (r: Result<seq<Record>, Exception>)
    ensures r == GetAudioChunksSpec(text, file, saveFolder, leading, trailing, w)
  {
    var t := AlignedText(text);
    var input := file;
    if input.BufferArg? {
      input := BytesArg(input.data);
    }
    var aligned := w.align(input, t);
    if aligned.Failure? {
      return Failure(aligned.error);
    }
    var segs := aligned.value;
    var loaded := LoadAudio(input, w);
    if loaded.Failure? {
      return Failure(loaded.error);
    }
    var audioChunks := CutChunks(loaded.value, segs, leading, trailing, w.draw);
    if Saving(saveFolder) {
      var savedFiles := SaveChunks(saveFolder.value, audioChunks);
      assert savedFiles == SavedChunks(saveFolder.value, segs, w.draw);
      r := Success(savedFiles);
    } else {
      r := Success(audioChunks);
    }
  }
}
