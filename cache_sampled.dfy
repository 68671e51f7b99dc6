/** The result-cache key of the labelling demo
    (sources/demo/utils/cache_utils.py): an MD5 over a sample of the audio
    bytes followed by the processing parameters, and the settings kept in
    the Streamlit session. MD5 itself is an oracle over the bytes fed to the
    hash object; only what is fed, and in which order, is modelled. */
module SampledCacheKey {
  import opened Common
  import opened Strings

  /** Buffers longer than this are sampled rather than hashed whole. */
  const Mib: nat := 0x10_0000
  /** The size of the head and of the tail that are always fed. */
  const Half: nat := 0x8_0000
  /** The size of one window from the middle. */
  const SampleSize: nat := 1024
  /** The number of windows from the middle (`range(10)`). It is given by
      a function so that the verifier does not unroll the window recursion
      ten times wherever the count appears. */
  function WindowCount(): nat { 10 }
  const Windows: nat := WindowCount()

  /** `bytes[lo:hi]` for non-negative bounds: both are clamped to the
      length, and an inverted range is empty. */
  function Slice(s: seq<byte>, lo: nat, hi: nat): (r: seq<byte>)
    ensures |r| <= |s|
    ensures hi <= lo || |s| <= lo ==> r == []
    ensures lo < hi && lo < |s| ==>
              && |r| == (if hi < |s| then hi else |s|) - lo
              && forall k :: 0 <= k < |r| ==> r[k] == s[lo + k]
  {
    var a := if lo < |s| then lo else |s|;
    var b := if hi < |s| then hi else |s|;
    if a <= b then s[a..b] else []
  }

  /** The distance between two windows in a buffer of `n` bytes. */
  function Stride(n: nat): nat
    requires n > Mib
  {
    (n - Mib) / 10
  }

  /** The start of window `i` in a buffer of `n` bytes. */
  function Pos(n: nat, i: nat): nat
    requires n > Mib
  {
    Half + i * Stride(n)
  }

  /** Window `i` of a buffer of more than 1 MiB. */
  function Window(audio: seq<byte>, i: nat): seq<byte>
    requires |audio| > Mib
  {
    Slice(audio, Pos(|audio|, i), Pos(|audio|, i) + SampleSize)
  }

  /** The windows of a buffer, as a function of their number. */
  function WindowsOf(audio: seq<byte>): nat -> seq<byte>
    requires |audio| > Mib
  {
    (i: nat) => Window(audio, i)
  }

  /** The pieces `f(0)`, ..., `f(k - 1)`, in order. */
  function Concatenated(f: nat -> seq<byte>, k: nat): seq<byte>
    decreases k
  {
    if k == 0 then [] else Concatenated(f, k - 1) + f(k - 1)
  }

  /** The first `k` middle windows, in order. */
  function MiddleWindows(audio: seq<byte>, k: nat): seq<byte>
    requires |audio| > Mib
  {
    Concatenated(WindowsOf(audio), k)
  }

  /** The audio bytes fed to the hash: the whole buffer up to 1 MiB, else
      the head, the tail and the ten middle windows. */
  function AudioFeed(audio: seq<byte>): seq<byte> {
    if |audio| > Mib then audio[..Half] + audio[|audio| - Half..] + MiddleWindows(audio, Windows)
    else audio
  }

  /** The parameters, each UTF-8 encoded, with nothing between them. */
  function ParamFeed(mode: string, model: string, lead: int, trail: int): seq<byte> {
    Utf8(mode) + Utf8(model) + Utf8(IntToString(lead)) + Utf8(IntToString(trail))
  }

  /** Everything fed to the hash object, in order. */
  function SampledStream(audio: seq<byte>, mode: string, model: string, lead: int, trail: int): seq<byte> {
    AudioFeed(audio) + ParamFeed(mode, model, lead, trail)
  }

  /** `hashlib.md5()`: what matters of it is the bytes fed so far. */
  class HashObject {
    var fed: seq<byte>

    constructor ()
      ensures fed == []
    {
      fed := [];
    }

    /** `hash_obj.update(data)` */
    method Update(data: seq<byte>)
      modifies this
      ensures fed == old(fed) + data
    {
      fed := fed + data;
    }

    /** `hash_obj.hexdigest()`, with `md5` the digest of a byte string. */
    function HexDigest(md5: seq<byte> -> string): string
      reads this
    {
      md5(fed)
    }
  }

  /** The `for i in range(10)` loop over the middle windows. */
  method FeedWindows(h: HashObject, audio: seq<byte>)
    requires |audio| > Mib
    modifies h
    ensures h.fed == old(h.fed) + MiddleWindows(audio, Windows)
  {
    var total := |audio|;
    for i := 0 to Windows
      invariant h.fed == old(h.fed) + MiddleWindows(audio, i)
    {
      var pos := Pos(total, i);
      var sample := Slice(audio, pos, pos + SampleSize);
      h.Update(sample);
      MiddleWindowsStep(audio, i);
      Associate(old(h.fed), MiddleWindows(audio, i), sample);
    }
  }

  /** `generate_cache_key`: the key is the digest of the sampled stream. */
  method GenerateCacheKey(md5: seq<byte> -> string, audio: seq<byte>, mode: string, model: string,
                          lead: int, trail: int) returns (key: string)
    ensures key == md5(SampledStream(audio, mode, model, lead, trail))
  {
    var h := new HashObject();
    if |audio| > Mib {
      h.Update(audio[..Half]);
      EmptyPrefix(audio[..Half]);
      h.Update(audio[|audio| - Half..]);
      FeedWindows(h, audio);
    } else {
      h.Update(audio);
      EmptyPrefix(audio);
    }
    ghost var feed := h.fed;
    assert feed == AudioFeed(audio);
    h.Update(Utf8(mode));
    h.Update(Utf8(model));
    h.Update(Utf8(IntToString(lead)));
    h.Update(Utf8(IntToString(trail)));
    Regroup(feed, Utf8(mode), Utf8(model), Utf8(IntToString(lead)), Utf8(IntToString(trail)));
    key := h.HexDigest(md5);
  }

  /** One more window is the windows so far followed by it. */
  lemma MiddleWindowsStep(audio: seq<byte>, i: nat)
    requires |audio| > Mib
    ensures MiddleWindows(audio, i + 1) == MiddleWindows(audio, i) + Window(audio, i)
  {
    assert WindowsOf(audio)(i) == Window(audio, i);
  }

  lemma Associate(a: seq<byte>, b: seq<byte>, c: seq<byte>)
    ensures a + b + c == a + (b + c)
  {
  }

  lemma EmptyPrefix(a: seq<byte>)
    ensures [] + a == a
  {
  }

  /** Four updates after `feed` feed `feed` and then the four together. */
  lemma Regroup(feed: seq<byte>, a: seq<byte>, b: seq<byte>, c: seq<byte>, d: seq<byte>)
    ensures feed + a + b + c + d == feed + (a + b + c + d)
  {
  }

  // ---------------------------------------------------------------------
  // Properties of the sampled stream

  /** Every middle window lies inside the buffer, after the head. */
  lemma WindowInside(n: nat, i: nat)
    requires n > Mib && i < Windows
    ensures Half <= Pos(n, i) && Pos(n, i) + SampleSize <= n
  {
    var q := Stride(n);
    assert 10 * q <= n - Mib;
    MulMonotone(i, 9, q);
    assert i * q <= 9 * q;
  }

  lemma MulMonotone(a: nat, b: nat, q: nat)
    requires a <= b
    ensures a * q <= b * q
  {
  }

  /** So the clamping of the slice never applies to a window. */
  lemma WindowUnclamped(audio: seq<byte>, i: nat)
    requires |audio| > Mib && i < Windows
    ensures var pos := Pos(|audio|, i);
            && Half <= pos && pos + SampleSize <= |audio|
            && Window(audio, i) == audio[pos..pos + SampleSize]
  {
    WindowInside(|audio|, i);
  }

  /** The first `k` windows hold `k` KiB. */
  lemma {:induction false} MiddleWindowsLength(audio: seq<byte>, k: nat)
    requires |audio| > Mib && k <= Windows
    ensures |MiddleWindows(audio, k)| == k * SampleSize
    decreases k
  {
    if k > 0 {
      MiddleWindowsLength(audio, k - 1);
      WindowUnclamped(audio, k - 1);
      WindowInside(|audio|, k - 1);
    }
  }

  /** The threshold is strict: a buffer of exactly 1 MiB is fed whole, and
      anything longer feeds exactly 1 MiB plus ten KiB. */
  lemma FeedLength(audio: seq<byte>)
    ensures |AudioFeed(audio)| == if |audio| > Mib then Mib + Windows * SampleSize else |audio|
    ensures |audio| <= Mib ==> AudioFeed(audio) == audio
  {
    if |audio| > Mib {
      MiddleWindowsLength(audio, Windows);
    }
  }

  /** Whether byte `j` of an `n`-byte buffer is in the head, the tail or one
      of the windows. */
  ghost predicate Sampled(n: nat, j: nat) {
    j < Half || n - Half <= j || exists i :: 0 <= i < Windows && Pos(n, i) <= j < Pos(n, i) + SampleSize
  }

  /** Two buffers of the same length that agree on the sampled bytes feed
      the same window bytes. */
  lemma WindowsAgree(a: seq<byte>, b: seq<byte>, k: nat)
    requires |a| == |b| > Mib && k <= Windows
    requires forall j :: 0 <= j < |a| && Sampled(|a|, j) ==> a[j] == b[j]
    ensures MiddleWindows(a, k) == MiddleWindows(b, k)
  {
    forall i | 0 <= i < k
      ensures WindowsOf(a)(i) == WindowsOf(b)(i)
    {
      WindowAgrees(a, b, i);
    }
    ConcatenatedAgree(WindowsOf(a), WindowsOf(b), k);
  }

  /** Pieces that agree give the same concatenation. */
  lemma {:induction false} ConcatenatedAgree(f: nat -> seq<byte>, g: nat -> seq<byte>, k: nat)
    requires forall i :: 0 <= i < k ==> f(i) == g(i)
    ensures Concatenated(f, k) == Concatenated(g, k)
    decreases k
  {
    if k > 0 {
      ConcatenatedAgree(f, g, k - 1);
    }
  }

  /** Window `i` of two such buffers holds the same bytes. */
  lemma WindowAgrees(a: seq<byte>, b: seq<byte>, i: nat)
    requires |a| == |b| > Mib && i < Windows
    requires forall j :: 0 <= j < |a| && Sampled(|a|, j) ==> a[j] == b[j]
    ensures Window(a, i) == Window(b, i)
  {
    var n := |a|;
    var pos := Pos(n, i);
    WindowInside(n, i);
    WindowUnclamped(a, i);
    WindowUnclamped(b, i);
    forall j | pos <= j < pos + SampleSize
      ensures a[j] == b[j]
    {
      InWindowSampled(n, i, j);
    }
    assert a[pos..pos + SampleSize] == b[pos..pos + SampleSize];
  }

  lemma InWindowSampled(n: nat, i: nat, j: nat)
    requires n > Mib && i < Windows && Pos(n, i) <= j < Pos(n, i) + SampleSize
    ensures Sampled(n, j)
  {
  }

  /** Bytes of a large buffer outside the head, the tail and the windows
      cannot change the key. */
  lemma UnsampledIrrelevant(md5: seq<byte> -> string, a: seq<byte>, b: seq<byte>,
                            mode: string, model: string, lead: int, trail: int)
    requires |a| == |b| > Mib
    requires forall j :: 0 <= j < |a| && Sampled(|a|, j) ==> a[j] == b[j]
    ensures md5(SampledStream(a, mode, model, lead, trail)) == md5(SampledStream(b, mode, model, lead, trail))
  {
    FeedsAgree(a, b);
  }

  /** The audio part of the stream, under the same hypothesis. */
  lemma FeedsAgree(a: seq<byte>, b: seq<byte>)
    requires |a| == |b| > Mib
    requires forall j :: 0 <= j < |a| && Sampled(|a|, j) ==> a[j] == b[j]
    ensures AudioFeed(a) == AudioFeed(b)
  {
    var n := |a|;
    HeadTailAgree(a, b);
    WindowsAgree(a, b, Windows);
  }

  /** The head and the tail are sampled. */
  lemma HeadTailAgree(a: seq<byte>, b: seq<byte>)
    requires |a| == |b| > Mib
    requires forall j :: 0 <= j < |a| && Sampled(|a|, j) ==> a[j] == b[j]
    ensures a[..Half] == b[..Half] && a[|a| - Half..] == b[|b| - Half..]
  {
    var n := |a|;
    forall j | 0 <= j < Half
      ensures a[j] == b[j]
    {
      assert Sampled(n, j);
    }
    forall j | n - Half <= j < n
      ensures a[j] == b[j]
    {
      assert Sampled(n, j);
    }
  }

  /** The parameters are not separated: paddings (1, 10) and (11, 0) feed
      the same bytes and give the same key. */
  lemma PaddingCollision(md5: seq<byte> -> string, audio: seq<byte>, mode: string, model: string)
    ensures SampledStream(audio, mode, model, 1, 10) == SampledStream(audio, mode, model, 11, 0)
    ensures md5(SampledStream(audio, mode, model, 1, 10)) == md5(SampledStream(audio, mode, model, 11, 0))
  {
    ParamCollision(mode, model);
  }

  /** Padding 1/10 and 11/0 feed the same parameter bytes. */
  lemma ParamCollision(mode: string, model: string)
    ensures ParamFeed(mode, model, 1, 10) == ParamFeed(mode, model, 11, 0)
  {
    DigitsCollision();
    var m := Utf8(mode) + Utf8(model);
    Associate(m, Utf8(IntToString(1)), Utf8(IntToString(10)));
    Associate(m, Utf8(IntToString(11)), Utf8(IntToString(0)));
  }

  /** "1" then "10" and "11" then "0" encode to the same bytes. */
  lemma DigitsCollision()
    ensures Utf8(IntToString(1)) + Utf8(IntToString(10)) == Utf8(IntToString(11)) + Utf8(IntToString(0))
  {
    assert IntToString(1) == "1";
    assert IntToString(10) == "10";
    assert IntToString(11) == "11";
    assert IntToString(0) == "0";
    Utf8Append("1", "10");
    Utf8Append("11", "0");
    assert "1" + "10" == "11" + "0";
  }

  // ---------------------------------------------------------------------
  // The settings kept in the session

  /** The defaults `get_current_settings` installs: the model, three
      attempts, 100 ms of padding on each side, caching on. */
  function Defaults(): (d: map<string, Setting>)
    ensures d.Keys == {"model", "max_retries", "leading_silence_ms", "trailing_silence_ms", "cache_results"}
  {
    map["model" := Str("gemini-2.0-flash"), "max_retries" := Int(3),
        "leading_silence_ms" := Int(100), "trailing_silence_ms" := Int(100),
        "cache_results" := Bool(true)]
  }

  /** What `get_current_settings` returns for what the session holds under
      "settings" (None when the key is absent). */
  function Current(stored: Option<map<string, Setting>>): map<string, Setting> {
    if stored.Some? then stored.value else Defaults()
  }

  /** `st.session_state`, as far as these helpers use it. */
  class SessionState {
    /** `st.session_state.settings`, None while the key is absent. */
    var settings: Option<map<string, Setting>>

    constructor ()
      ensures settings.None?
    {
      settings := None;
    }

    /** `get_current_settings`: install the defaults if nothing is stored,
        then hand back what is stored. */
    method GetCurrentSettings() returns (current: map<string, Setting>)
      modifies this
      ensures current == Current(old(settings))
      ensures settings == Some(current)
    {
      if settings.None? {
        settings := Some(Defaults());
      }
      current := settings.value;
    }

    /** `update_settings`: write every given key into the current settings,
        one by one, and store the result. */
    method UpdateSettings(updates: map<string, Setting>) returns (current: map<string, Setting>)
      modifies this
      ensures current == Current(old(settings)) + updates
      ensures settings == Some(current)
    {
      current := GetCurrentSettings();
      ghost var start := current;
      var remaining := updates.Keys;
      while remaining != {}
        invariant remaining <= updates.Keys
        invariant current.Keys == start.Keys + (updates.Keys - remaining)
        invariant forall k :: k in updates && k !in remaining ==> current[k] == updates[k]
        invariant forall k :: k in start && (k !in updates || k in remaining) ==> current[k] == start[k]
        decreases remaining
      {
        var key :| key in remaining;
        current := current[key := updates[key]];
        remaining := remaining - {key};
      }
      assert current == start + updates;
      settings := Some(current);
    }
  }

  /** Once installed, the settings are handed back as stored: a second
      call installs nothing, and without a prior call it is the defaults. */
  lemma CurrentInstalledOnce(stored: Option<map<string, Setting>>)
    ensures Current(Some(Current(stored))) == Current(stored)
    ensures stored.None? ==> Current(stored) == Defaults()
  {
  }

  /** An update overwrites exactly the given keys and keeps every other
      setting. */
  lemma UpdateKeepsOthers(current: map<string, Setting>, updates: map<string, Setting>)
    ensures (current + updates).Keys == current.Keys + updates.Keys
    ensures forall k :: k in updates ==> (current + updates)[k] == updates[k]
    ensures forall k :: k in current && k !in updates ==> (current + updates)[k] == current[k]
  {
  }
}
