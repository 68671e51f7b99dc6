/** Silence-based segmentation (sources/core/split_audio.py).

    pydub's `split_on_silence` and `detect_silence` are not modelled: the
    speech chunks they would return and the number of silence intervals
    they would detect are parameters. Each of them first decodes the file
    with `AudioSegment.from_file`, which may raise, so each parameter is
    either a value or the exception its decoding raised. A chunk is audio in millisecond
    frames, so `len(chunk)` is its length and `+=` on AudioSegments is
    sequence concatenation. */
module SplitAudio {
  import opened Common
  import opened Strings

  const UnsupportedAudio: Exception := Exception(ValueError, "Unsupported audio file type")

  /** Python truthiness of `max_segment_length`: None and 0 mean "no bound". */
  predicate Bounded(maxLen: Option<int>) {
    maxLen.Some? && maxLen.value != 0
  }

  /** The speech chunks that survive the `len(chunk) < min_segment_length`
      filter, in input order. */
  function Kept(chunks: seq<Audio>, minLen: int): (r: seq<Audio>)
    ensures |r| <= |chunks|
    ensures forall i :: 0 <= i < |r| ==> |r[i]| >= minLen && r[i] in chunks
  {
    if chunks == [] then []
    else if |chunks[0]| < minLen then Kept(chunks[1..], minLen)
    else [chunks[0]] + Kept(chunks[1..], minLen)
  }

  /** No chunk of `min_segment_length` or more is dropped. */
  lemma {:induction false} KeptComplete(chunks: seq<Audio>, minLen: int)
    ensures forall c :: c in chunks && |c| >= minLen ==> c in Kept(chunks, minLen)
    decreases |chunks|
  {
    if chunks != [] {
      KeptComplete(chunks[1..], minLen);
      assert forall c :: c in chunks ==> c == chunks[0] || c in chunks[1..];
    }
  }

  /** A single chunk is kept exactly when it is long enough. */
  lemma KeptSingle(c: Audio, minLen: int)
    ensures Kept([c], minLen) == if |c| >= minLen then [c] else []
  {
    assert [c][1..] == [];
  }

  /** The filter works chunk by chunk: on a concatenation it is the
      concatenation of the filtered parts. With `KeptSingle`, every long
      chunk is kept, in input order, and no short one. */
  lemma {:induction false} KeptAppend(a: seq<Audio>, b: seq<Audio>, minLen: int)
    ensures Kept(a + b, minLen) == Kept(a, minLen) + Kept(b, minLen)
    decreases |a|
  {
    if a == [] {
      assert a + b == b;
    } else {
      assert (a + b)[1..] == a[1..] + b;
      KeptAppend(a[1..], b, minLen);
    }
  }

  /** The open segment, as audio: nothing when there is none. */
  function Open(current: Option<Audio>): Audio {
    if current.Some? then current.value else []
  }

  /** The greedy packing of `rest` when `current` is the open segment: a
      chunk joins the open segment unless the bound is set and it would
      overflow it, in which case the open segment is closed. */
  function PackFrom(rest: seq<Audio>, current: Option<Audio>, maxLen: Option<int>): seq<Audio>
    decreases |rest|
  {
    if rest == [] then
      if current.Some? then [current.value] else []
    else if current.None? then
      PackFrom(rest[1..], Some(rest[0]), maxLen)
    else if Bounded(maxLen) && |current.value| + |rest[0]| > maxLen.value then
      [current.value] + PackFrom(rest[1..], Some(rest[0]), maxLen)
    else
      PackFrom(rest[1..], Some(current.value + rest[0]), maxLen)
  }

  /** The segments `split_audio_on_silence` returns for the speech chunks
      `chunks`. */
  function GreedySegments(chunks: seq<Audio>, minLen: int, maxLen: Option<int>): seq<Audio> {
    PackFrom(Kept(chunks, minLen), None, maxLen)
  }

  lemma {:induction false} PackConcat(rest: seq<Audio>, current: Option<Audio>, maxLen: Option<int>)
    ensures Concat(PackFrom(rest, current, maxLen)) == Open(current) + Concat(rest)
    decreases |rest|
  {
    if rest == [] {
      if current.Some? {
        ConcatSingle(current.value);
      }
    } else {
      ConcatAppend([rest[0]], rest[1..]);
      ConcatSingle(rest[0]);
      assert [rest[0]] + rest[1..] == rest;
      if current.None? {
        PackConcat(rest[1..], Some(rest[0]), maxLen);
      } else if Bounded(maxLen) && |current.value| + |rest[0]| > maxLen.value {
        PackConcat(rest[1..], Some(rest[0]), maxLen);
        ConcatAppend([current.value], PackFrom(rest[1..], Some(rest[0]), maxLen));
        ConcatSingle(current.value);
      } else {
        PackConcat(rest[1..], Some(current.value + rest[0]), maxLen);
      }
    }
  }

  /** Nothing kept is lost, duplicated or reordered: the segments, played
      back to back, are the kept speech chunks played back to back. */
  lemma SegmentsConcat(chunks: seq<Audio>, minLen: int, maxLen: Option<int>)
    ensures Concat(GreedySegments(chunks, minLen, maxLen)) == Concat(Kept(chunks, minLen))
  {
    PackConcat(Kept(chunks, minLen), None, maxLen);
  }

  lemma {:induction false} PackMin(rest: seq<Audio>, current: Option<Audio>, maxLen: Option<int>, minLen: int)
    requires forall i :: 0 <= i < |rest| ==> |rest[i]| >= minLen
    requires current.Some? ==> |current.value| >= minLen
    ensures forall i :: 0 <= i < |PackFrom(rest, current, maxLen)| ==> |PackFrom(rest, current, maxLen)[i]| >= minLen
    decreases |rest|
  {
    if rest != [] {
      if current.None? || (Bounded(maxLen) && |current.value| + |rest[0]| > maxLen.value) {
        PackMin(rest[1..], Some(rest[0]), maxLen, minLen);
      } else {
        PackMin(rest[1..], Some(current.value + rest[0]), maxLen, minLen);
      }
    }
  }

  /** No segment is shorter than `min_segment_length`. */
  lemma SegmentsMin(chunks: seq<Audio>, minLen: int, maxLen: Option<int>)
    ensures forall i :: 0 <= i < |GreedySegments(chunks, minLen, maxLen)| ==>
              |GreedySegments(chunks, minLen, maxLen)[i]| >= minLen
  {
    PackMin(Kept(chunks, minLen), None, maxLen, minLen);
  }

  lemma {:induction false} PackBound(rest: seq<Audio>, current: Option<Audio>, maxLen: Option<int>, pool: seq<Audio>)
    requires Bounded(maxLen)
    requires forall i :: 0 <= i < |rest| ==> rest[i] in pool
    requires current.Some? ==> |current.value| <= maxLen.value || current.value in pool
    ensures forall i :: 0 <= i < |PackFrom(rest, current, maxLen)| ==>
              |PackFrom(rest, current, maxLen)[i]| <= maxLen.value || PackFrom(rest, current, maxLen)[i] in pool
    decreases |rest|
  {
    if rest != [] {
      assert rest[0] in pool;
      if current.None? || (Bounded(maxLen) && |current.value| + |rest[0]| > maxLen.value) {
        PackBound(rest[1..], Some(rest[0]), maxLen, pool);
      } else {
        PackBound(rest[1..], Some(current.value + rest[0]), maxLen, pool);
      }
    }
  }

  /** With a bound, a segment is either within it or one speech chunk,
      uncut, that was already longer than the bound on its own. */
  lemma SegmentsBound(chunks: seq<Audio>, minLen: int, maxLen: Option<int>)
    requires Bounded(maxLen)
    ensures forall i :: 0 <= i < |GreedySegments(chunks, minLen, maxLen)| ==>
              var s := GreedySegments(chunks, minLen, maxLen)[i];
              |s| <= maxLen.value || (s in chunks && |s| >= minLen)
  {
    var kept := Kept(chunks, minLen);
    PackBound(kept, None, maxLen, kept);
  }

  lemma {:induction false} PackFirst(rest: seq<Audio>, open: Audio, maxLen: Option<int>)
    ensures |PackFrom(rest, Some(open), maxLen)| > 0
    ensures |PackFrom(rest, Some(open), maxLen)[0]| >= |open|
    decreases |rest|
  {
    if rest != [] {
      if Bounded(maxLen) && |open| + |rest[0]| > maxLen.value {
      } else {
        PackFirst(rest[1..], open + rest[0], maxLen);
      }
    }
  }

  lemma {:induction false} PackGreedy(rest: seq<Audio>, current: Option<Audio>, maxLen: Option<int>)
    requires Bounded(maxLen)
    ensures forall i :: 0 < i < |PackFrom(rest, current, maxLen)| ==>
              |PackFrom(rest, current, maxLen)[i - 1]| + |PackFrom(rest, current, maxLen)[i]| > maxLen.value
    decreases |rest|
  {
    if rest != [] {
      if current.None? {
        PackGreedy(rest[1..], Some(rest[0]), maxLen);
      } else if |current.value| + |rest[0]| > maxLen.value {
        var tail := PackFrom(rest[1..], Some(rest[0]), maxLen);
        PackGreedy(rest[1..], Some(rest[0]), maxLen);
        PackFirst(rest[1..], rest[0], maxLen);
        assert PackFrom(rest, current, maxLen) == [current.value] + tail;
      } else {
        PackGreedy(rest[1..], Some(current.value + rest[0]), maxLen);
      }
    }
  }

  /** Greedy: with a bound, no two neighbouring segments would fit in one. */
  lemma SegmentsGreedy(chunks: seq<Audio>, minLen: int, maxLen: Option<int>)
    requires Bounded(maxLen)
    ensures forall i :: 0 < i < |GreedySegments(chunks, minLen, maxLen)| ==>
              |GreedySegments(chunks, minLen, maxLen)[i - 1]| + |GreedySegments(chunks, minLen, maxLen)[i]|
                > maxLen.value
  {
    PackGreedy(Kept(chunks, minLen), None, maxLen);
  }

  lemma {:induction false} PackUnbounded(rest: seq<Audio>, current: Option<Audio>, maxLen: Option<int>)
    requires !Bounded(maxLen)
    ensures PackFrom(rest, current, maxLen) == if current.None? && rest == [] then [] else [Open(current) + Concat(rest)]
    decreases |rest|
  {
    if rest == [] {
      assert Open(current) + Concat(rest) == Open(current);
    } else {
      ConcatAppend([rest[0]], rest[1..]);
      ConcatSingle(rest[0]);
      assert [rest[0]] + rest[1..] == rest;
      assert Concat(rest) == rest[0] + Concat(rest[1..]);
      if current.None? {
        PackUnbounded(rest[1..], Some(rest[0]), maxLen);
        assert Open(current) + Concat(rest) == rest[0] + Concat(rest[1..]);
      } else {
        PackUnbounded(rest[1..], Some(current.value + rest[0]), maxLen);
        assert current.value + rest[0] + Concat(rest[1..]) == current.value + Concat(rest);
      }
    }
  }

  /** Without a bound (`max_segment_length` None or 0) all kept speech is
      one segment. */
  lemma SegmentsUnbounded(chunks: seq<Audio>, minLen: int, maxLen: Option<int>)
    requires !Bounded(maxLen)
    ensures GreedySegments(chunks, minLen, maxLen)
         == if Kept(chunks, minLen) == [] then [] else [Concat(Kept(chunks, minLen))]
  {
    var kept := Kept(chunks, minLen);
    PackUnbounded(kept, None, maxLen);
    assert Open(None) + Concat(kept) == Concat(kept);
  }

  /** One step of the filter, at position `k`. */
  lemma KeptFrom(chunks: seq<Audio>, k: nat, minLen: int)
    requires k < |chunks|
    ensures Kept(chunks[k..], minLen)
         == if |chunks[k]| < minLen then Kept(chunks[k + 1..], minLen)
            else [chunks[k]] + Kept(chunks[k + 1..], minLen)
  {
    assert chunks[k..][1..] == chunks[k + 1..];
  }

  /** One step of the packing, for the next kept chunk `x`. */
  lemma PackCons(x: Audio, rest: seq<Audio>, current: Option<Audio>, maxLen: Option<int>)
    ensures PackFrom([x] + rest, current, maxLen)
         == if current.None? then PackFrom(rest, Some(x), maxLen)
            else if Bounded(maxLen) && |current.value| + |x| > maxLen.value
            then [current.value] + PackFrom(rest, Some(x), maxLen)
            else PackFrom(rest, Some(current.value + x), maxLen)
  {
    assert ([x] + rest)[1..] == rest;
  }

  /** `split_audio_on_silence`: type check, decoding (`decoded` is the
      chunks `split_on_silence` cuts, or what decoding raised), then the
      loop that drops short chunks and packs the rest greedily. */
  method SplitAudioOnSilence(audio: AudioArg, decoded: Result<seq<Audio>, Exception>, minLen: int, maxLen: Option<int>)
    returns (r: Result<seq<Audio>, Exception>)
    ensures !IsPathOrBuffer(audio) ==> r == Failure(UnsupportedAudio)
    ensures IsPathOrBuffer(audio) && decoded.Failure? ==> r == Failure(decoded.error)
    ensures IsPathOrBuffer(audio) && decoded.Success? ==> r == Success(GreedySegments(decoded.value, minLen, maxLen))
  {
    if !IsPathOrBuffer(audio) {
      return Failure(UnsupportedAudio);
    }
    if decoded.Failure? {
      return Failure(decoded.error);
    }
    var chunks := decoded.value;
    ghost var target := GreedySegments(chunks, minLen, maxLen);
    var processed: seq<Audio> := [];
    var current: Option<Audio> := None;
    var currentDuration := 0;
    assert chunks[0..] == chunks;
    for k := 0 to |chunks|
      invariant processed + PackFrom(Kept(chunks[k..], minLen), current, maxLen) == target
      invariant current.Some? ==> |current.value| >= minLen
      invariant currentDuration == |Open(current)|
    {
      var chunk := chunks[k];
      KeptFrom(chunks, k, minLen);
      if |chunk| < minLen {
        continue;
      }
      ghost var rest := Kept(chunks[k + 1..], minLen);
      PackCons(chunk, rest, current, maxLen);
      assert processed + PackFrom([chunk] + rest, current, maxLen) == target;
      if current.None? || (Bounded(maxLen) && currentDuration + |chunk| > maxLen.value) {
        // always true when a segment is open: it starts with a kept chunk
        if current.Some? && currentDuration >= minLen {
          processed := processed + [current.value];
        }
        current := Some(chunk);
        currentDuration := |chunk|;
      } else {
        current := Some(current.value + chunk);
        currentDuration := currentDuration + |chunk|;
      }
    }
    assert chunks[|chunks|..] == [];
    assert processed + PackFrom([], current, maxLen) == target;
    if current.Some? && currentDuration >= minLen {
      processed := processed + [current.value];
    } else {
      assert processed + PackFrom([], current, maxLen) == processed;
    }
    r := Success(processed);
  }

  /** What `process_audio_file` hands back. */
  datatype Piece =
    | Original(arg: AudioArg)   // the caller's own path or BytesIO (rewound)
    | Loaded(data: seq<byte>)   // a BytesIO over the bytes read from the path
    | Cut(audio: Audio)         // an exported segment
    | Saved(path: string)       // the path `save_audio_chunks` wrote a segment to

  /** The path `save_audio_chunks` gives the i-th segment (0-based). */
  function SavedPath(dir: string, prefix: string, i: nat): (p: string)
    ensures EndsWith(p, ".wav")
  {
    JoinPath(dir, prefix + "_" + IntToString(i + 1) + ".wav")
  }

  /** `save_audio_chunks`: the export itself is I/O; what is modelled is
      the list of paths, one per segment, numbered from 1. */
  method SaveAudioChunks(segments: seq<Audio>, dir: string, prefix: string) returns (paths: seq<string>)
    ensures |paths| == |segments|
    ensures forall i :: 0 <= i < |paths| ==> paths[i] == SavedPath(dir, prefix, i)
  {
    paths := [];
    for i := 0 to |segments|
      invariant |paths| == i
      invariant forall j :: 0 <= j < i ==> paths[j] == SavedPath(dir, prefix, j)
    {
      paths := paths + [SavedPath(dir, prefix, i)];
    }
  }

  /** `process_audio_file`. `silences` is `len(detect_silence(...))` and
      `chunks` what `split_on_silence` returns, each or the exception its
      decoding raised; `readFile` is the content of a path or what `open`
      raised; `tempDir` is what `tempfile.mkdtemp()` returns. */
  method ProcessAudioFile(audio: AudioArg, silences: Result<nat, Exception>, chunks: Result<seq<Audio>, Exception>,
                          minLen: int, maxLen: Option<int>, saveToDisk: bool,
                          outputDir: Option<string>, tempDir: string, prefix: string,
                          readFile: string -> Result<seq<byte>, Exception>)
    returns (r: Result<seq<Piece>, Exception>)
    ensures !IsPathOrBuffer(audio) ==> r == Failure(UnsupportedAudio)
    // the first decoding raises
    ensures IsPathOrBuffer(audio) && silences.Failure? ==> r == Failure(silences.error)
    // at most two silences (leading and trailing): the input itself, uncut,
    // unless reading the path raises
    ensures IsPathOrBuffer(audio) && silences.Success? && silences.value <= 2 ==>
              if audio.PathArg? && !saveToDisk then
                (readFile(audio.path).Failure? ==> r == Failure(readFile(audio.path).error))
                && (readFile(audio.path).Success? ==> r == Success([Loaded(readFile(audio.path).value)]))
              else r == Success([Original(audio)])
    // otherwise the second decoding raises, or there is one piece per
    // greedy segment, in order
    ensures IsPathOrBuffer(audio) && silences.Success? && silences.value > 2 && chunks.Failure? ==>
              r == Failure(chunks.error)
    ensures IsPathOrBuffer(audio) && silences.Success? && silences.value > 2 && chunks.Success? ==>
              var segments := GreedySegments(chunks.value, minLen, maxLen);
              && r.Success?
              && |r.value| == |segments|
              && (!saveToDisk ==> forall i :: 0 <= i < |segments| ==> r.value[i] == Cut(segments[i]))
              && (saveToDisk ==>
                    var dir := if outputDir.Some? && outputDir.value != "" then outputDir.value else tempDir;
                    forall i :: 0 <= i < |segments| ==> r.value[i] == Saved(SavedPath(dir, prefix, i)))
  {
    // detect_silence_intervals rejects the same argument types
    if !IsPathOrBuffer(audio) {
      return Failure(UnsupportedAudio);
    }
    if silences.Failure? {
      return Failure(silences.error);
    }
    if silences.value <= 2 {
      if audio.PathArg? && !saveToDisk {
        var content := readFile(audio.path);
        if content.Failure? {
          return Failure(content.error);
        }
        return Success([Loaded(content.value)]);
      }
      return Success([Original(audio)]);
    }
    var split := SplitAudioOnSilence(audio, chunks, minLen, maxLen);
    if split.Failure? {
      return Failure(split.error);
    }
    var cut := split.value;
    var pieces: seq<Piece>;
    if saveToDisk {
      var dir := if outputDir.Some? && outputDir.value != "" then outputDir.value else tempDir;
      var paths := SaveAudioChunks(cut, dir, prefix);
      pieces := seq(|paths|, i requires 0 <= i < |paths| => Saved(paths[i]));
    } else {
      pieces := seq(|cut|, i requires 0 <= i < |cut| => Cut(cut[i]));
    }
    r := Success(pieces);
  }
}
