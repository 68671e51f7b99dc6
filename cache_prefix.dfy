/** The result cache of the transcription demo (demo/utils/cache_utils.py
    and the lookup in demo/pages/01_TTS_Labeling.py): a key made from the
    MD5 of the first MiB of audio and the processing parameters, the
    settings kept in the Streamlit session, and the map from keys to
    results. MD5 is an oracle from bytes to its hex digest. */
module PrefixCacheKey {
  import opened Common
  import opened Strings

  /** Only this many leading bytes of the audio are hashed. */
  const Mib: nat := 0x10_0000

  /** `audio_bytes[:1024*1024]` */
  function Prefix(audio: seq<byte>): (p: seq<byte>)
    ensures |p| == Min(|audio|, Mib)
    ensures p <= audio
  {
    if |audio| <= Mib then audio else audio[..Mib]
  }

  /** `str(v)`, which is what an f-string puts in place of `{v}`. */
  function Render(v: Setting): string {
    match v
    case Str(s) => s
    case Int(i) => IntToString(i)
    case Bool(b) => if b then "True" else "False"
  }

  /** `f"{processing_mode}_{model}_{leading_silence_ms}_{trailing_silence_ms}"` */
  function ParamsString(mode: string, model: Setting, lead: Setting, trail: Setting): string {
    mode + "_" + Render(model) + "_" + Render(lead) + "_" + Render(trail)
  }

  /** `f"{audio_hash}_{params_string}"` */
  function Combined(audioHash: string, mode: string, model: Setting, lead: Setting, trail: Setting): string {
    audioHash + "_" + ParamsString(mode, model, lead, trail)
  }

  /** `generate_cache_key`: the digest of the combined string, whose first
      field is the digest of the audio prefix. */
  function GenerateCacheKey(md5: seq<byte> -> string, audio: seq<byte>, mode: string, model: Setting,
                            lead: Setting, trail: Setting): string
  {
    md5(Utf8(Combined(md5(Prefix(audio)), mode, model, lead, trail)))
  }

  /** The paddings default to 0. */
  function GenerateCacheKeyDefault(md5: seq<byte> -> string, audio: seq<byte>, mode: string, model: Setting): string {
    GenerateCacheKey(md5, audio, mode, model, Int(0), Int(0))
  }

  // ---------------------------------------------------------------------
  // Properties of the key

  /** Bytes after the first MiB never reach the hash: appending to a buffer
      of at least 1 MiB leaves the key unchanged. */
  lemma KeyIgnoresTail(md5: seq<byte> -> string, audio: seq<byte>, tail: seq<byte>, mode: string,
                       model: Setting, lead: Setting, trail: Setting)
    requires |audio| >= Mib
    ensures GenerateCacheKey(md5, audio + tail, mode, model, lead, trail)
            == GenerateCacheKey(md5, audio, mode, model, lead, trail)
  {
    assert Prefix(audio + tail) == (audio + tail)[..Mib] == audio[..Mib];
    if |audio| == Mib {
      assert audio[..Mib] == audio;
    }
  }

  /** The key depends on the audio only through its first MiB. */
  lemma KeyDependsOnPrefix(md5: seq<byte> -> string, a: seq<byte>, b: seq<byte>, mode: string,
                           model: Setting, lead: Setting, trail: Setting)
    requires Min(|a|, Mib) == Min(|b|, Mib)
    requires forall j :: 0 <= j < Min(|a|, Mib) ==> a[j] == b[j]
    ensures GenerateCacheKey(md5, a, mode, model, lead, trail) == GenerateCacheKey(md5, b, mode, model, lead, trail)
  {
    assert Prefix(a) == Prefix(b);
  }

  /** A rendered integer holds no underscore. */
  lemma NoUnderscoreInInt(i: int)
    ensures '_' !in IntToString(i)
  {
    var s := NatToString(if i < 0 then -i else i);
    assert forall k :: 0 <= k < |s| ==> s[k] != '_';
    if i < 0 {
      assert IntToString(i) == "-" + s;
      assert forall k :: 0 <= k < |"-" + s| ==> ("-" + s)[k] != '_';
    }
  }

  /** The combined string is its five fields joined by underscores. */
  lemma CombinedIsJoin(audioHash: string, mode: string, model: Setting, lead: Setting, trail: Setting)
    ensures Combined(audioHash, mode, model, lead, trail)
            == Join([audioHash, mode, Render(model), Render(lead), Render(trail)], "_")
  {
    var xs := [audioHash, mode, Render(model), Render(lead), Render(trail)];
    assert xs[1..][1..][1..][1..] == [Render(trail)];
    assert Join(xs[1..][1..][1..], "_") == Render(lead) + "_" + Render(trail);
    assert Join(xs[1..][1..], "_") == Render(model) + "_" + (Render(lead) + "_" + Render(trail));
    assert Join(xs[1..], "_") == mode + "_" + (Render(model) + "_" + (Render(lead) + "_" + Render(trail)));
  }

  /** When the digest, the mode and the rendered values hold no underscore,
      the fields can be read back by splitting on it: unlike the sampled
      key, different paddings never give the same string. */
  lemma CombinedFields(audioHash: string, mode: string, model: Setting, lead: Setting, trail: Setting)
    requires '_' !in audioHash && '_' !in mode
    requires '_' !in Render(model) && '_' !in Render(lead) && '_' !in Render(trail)
    ensures Split(Combined(audioHash, mode, model, lead, trail), '_')
            == [audioHash, mode, Render(model), Render(lead), Render(trail)]
  {
    CombinedIsJoin(audioHash, mode, model, lead, trail);
    var xs := [audioHash, mode, Render(model), Render(lead), Render(trail)];
    assert ['_'] == "_";
    JoinSplitRoundTrip(xs, '_');
  }

  /** Integer paddings are told apart: (1, 10) and (11, 0) give different
      combined strings. */
  lemma PaddingsDistinguished(audioHash: string, mode: string, model: Setting)
    requires '_' !in audioHash && '_' !in mode && '_' !in Render(model)
    ensures Combined(audioHash, mode, model, Int(1), Int(10)) != Combined(audioHash, mode, model, Int(11), Int(0))
  {
    NoUnderscoreInInt(1);
    NoUnderscoreInInt(10);
    NoUnderscoreInInt(11);
    NoUnderscoreInInt(0);
    CombinedFields(audioHash, mode, model, Int(1), Int(10));
    CombinedFields(audioHash, mode, model, Int(11), Int(0));
    assert IntToString(1) == "1" && IntToString(11) == "11";
  }

  /** Left to their defaults, the paddings appear as two zeros at the end. */
  lemma DefaultPaddings(md5: seq<byte> -> string, audio: seq<byte>, mode: string, model: Setting)
    ensures var c := Combined(md5(Prefix(audio)), mode, model, Int(0), Int(0));
            GenerateCacheKeyDefault(md5, audio, mode, model) == md5(Utf8(c)) && EndsWith(c, "_0_0")
  {
    var audioHash := md5(Prefix(audio));
    var c := Combined(audioHash, mode, model, Int(0), Int(0));
    assert IntToString(0) == "0";
    assert c == audioHash + "_" + mode + "_" + Render(model) + "_0_0";
    assert c[|c| - 4..] == "_0_0";
  }

  // ---------------------------------------------------------------------
  // Settings and the result cache in the session

  /** The defaults `get_current_settings` installs under "app_settings". */
  function Defaults(): (d: map<string, Setting>)
    ensures d.Keys == {"cache_results", "model", "max_retries", "leading_silence_ms", "trailing_silence_ms"}
  {
    map["cache_results" := Bool(true), "model" := Str("gemini-2.0-flash"), "max_retries" := Int(3),
        "leading_silence_ms" := Int(100), "trailing_silence_ms" := Int(100)]
  }

  /** What `get_current_settings` returns for what is stored (None while
      "app_settings" is absent). */
  function Current(stored: Option<map<string, Setting>>): map<string, Setting> {
    if stored.Some? then stored.value else Defaults()
  }

  /** `dict.get(key, default)` */
  function Get(m: map<string, Setting>, key: string, default: Setting): Setting {
    if key in m then m[key] else default
  }

  /** Python truthiness of a setting. */
  predicate Truthy(v: Setting) {
    match v
    case Str(s) => s != ""
    case Int(i) => i != 0
    case Bool(b) => b
  }

  /** `clear_cache` on what is stored under "audio_cache": an existing
      cache is emptied and the call reports it. */
  function Cleared(cache: Option<map<string, seq<Record>>>): (Option<map<string, seq<Record>>>, bool) {
    if cache.Some? then (Some(map[]), true) else (cache, false)
  }

  /** One lookup of the page: with caching on, a stored result for the key
      is returned as is; otherwise the freshly computed outcome is returned
      and, when it succeeded with caching on, stored under the key. The
      cache is created empty on the first lookup. Returns the outcome,
      whether the cache served it, and the new cache. */
  function Lookup(cache: Option<map<string, seq<Record>>>, useCache: bool, key: string,
                  computed: Result<seq<Record>, Exception>)
    : (Result<seq<Record>, Exception>, bool, Option<map<string, seq<Record>>>)
  {
    if !useCache then (computed, false, cache)
    else
      var c := if cache.Some? then cache.value else map[];
      if key in c then (Success(c[key]), true, Some(c))
      else if computed.Success? then (computed, false, Some(c[key := computed.value]))
      else (computed, false, Some(c))
  }

  /** The key the page computes: the paddings count only when aligning. */
  function PageKey(md5: seq<byte> -> string, audio: seq<byte>, mode: string, settings: map<string, Setting>): string {
    var align := mode == "Transcription & Segmentation";
    GenerateCacheKey(md5, audio, mode,
                     Get(settings, "model", Str("gemini-2.0-flash")),
                     if align then Get(settings, "leading_silence_ms", Int(100)) else Int(0),
                     if align then Get(settings, "trailing_silence_ms", Int(100)) else Int(0))
  }

  /** `st.session_state`, as far as the cache helpers and the page use it. */
  class AppSession {
    /** `st.session_state.app_settings`, None while absent. */
    var appSettings: Option<map<string, Setting>>
    /** `st.session_state.audio_cache`, None while absent. */
    var audioCache: Option<map<string, seq<Record>>>

    constructor ()
      ensures appSettings.None? && audioCache.None?
    {
      appSettings, audioCache := None, None;
    }

    /** `get_current_settings` */
    method GetCurrentSettings() returns (current: map<string, Setting>)
      modifies this
      ensures current == Current(old(appSettings))
      ensures appSettings == Some(current) && audioCache == old(audioCache)
    {
      if appSettings.None? {
        appSettings := Some(Defaults());
      }
      current := appSettings.value;
    }

    /** `update_settings`: `dict.update` on the current settings. */
    method UpdateSettings(updates: map<string, Setting>)
      modifies this
      ensures appSettings == Some(Current(old(appSettings)) + updates) && audioCache == old(audioCache)
    {
      var current := GetCurrentSettings();
      current := current + updates;
      appSettings := Some(current);
    }

    /** `clear_cache` */
    method ClearCache() returns (cleared: bool)
      modifies this
      ensures (audioCache, cleared) == Cleared(old(audioCache)) && appSettings == old(appSettings)
    {
      if audioCache.Some? {
        audioCache := Some(map[]);
        return true;
      }
      return false;
    }

    /** The cache lookup of the processing page: read the settings, build
        the key, serve a stored result or take the computed one (`computed`
        is what processing the audio gives) and store it. */
    method ProcessWithCache(md5: seq<byte> -> string, audio: seq<byte>, mode: string,
                            computed: Result<seq<Record>, Exception>)
      returns (results: Result<seq<Record>, Exception>, cacheUsed: bool)
      modifies this
      ensures var settings := Current(old(appSettings));
              (results, cacheUsed, audioCache)
              == Lookup(old(audioCache), Truthy(Get(settings, "cache_results", Bool(true))),
                        PageKey(md5, audio, mode, settings), computed)
      ensures appSettings == Some(Current(old(appSettings)))
    {
      var settings := GetCurrentSettings();
      var useCache := Truthy(Get(settings, "cache_results", Bool(true)));
      var doAlignment := mode == "Transcription & Segmentation";
      var model := Get(settings, "model", Str("gemini-2.0-flash"));
      var lead := Get(settings, "leading_silence_ms", Int(100));
      var trail := Get(settings, "trailing_silence_ms", Int(100));
      cacheUsed := false;
      var key := "";
      if useCache {
        key := GenerateCacheKey(md5, audio, mode, model, if doAlignment then lead else Int(0),
                                if doAlignment then trail else Int(0));
        if audioCache.None? {
          audioCache := Some(map[]);
        }
        if key in audioCache.value {
          results := Success(audioCache.value[key]);
          cacheUsed := true;
        }
      }
      if !cacheUsed {
        results := computed;
        if useCache && computed.Success? {
          audioCache := Some(audioCache.value[key := computed.value]);
        }
      }
    }
  }

  // ---------------------------------------------------------------------
  // Properties of the settings and the cache

  /** Settings are installed once: a second call hands back what the first
      stored, and an update keeps every key it does not name. */
  lemma SettingsRules(stored: Option<map<string, Setting>>, updates: map<string, Setting>)
    ensures Current(Some(Current(stored))) == Current(stored)
    ensures stored.None? ==> Current(stored) == Defaults()
    ensures forall k :: k in Current(stored) && k !in updates ==> (Current(stored) + updates)[k] == Current(stored)[k]
    ensures forall k :: k in updates ==> (Current(stored) + updates)[k] == updates[k]
  {
  }

  /** `clear_cache` reports whether a cache existed; after a successful
      clear a second clear succeeds again on the now-empty cache. */
  lemma ClearRules(cache: Option<map<string, seq<Record>>>)
    ensures Cleared(cache).1 <==> cache.Some?
    ensures Cleared(cache).1 ==> Cleared(cache).0 == Some(map[]) && Cleared(Cleared(cache).0).1
    ensures !Cleared(cache).1 ==> Cleared(cache).0 == cache
  {
  }

  /** A stored result is served whatever processing would give now, and
      the cache is left as it was. */
  lemma HitServesStored(cache: Option<map<string, seq<Record>>>, key: string, computed: Result<seq<Record>, Exception>)
    requires cache.Some? && key in cache.value
    ensures Lookup(cache, true, key, computed) == (Success(cache.value[key]), true, cache)
  {
  }

  /** After a successful miss, the same key is served from the cache: the
      second computation is ignored. */
  lemma SecondLookupHits(cache: Option<map<string, seq<Record>>>, key: string,
                         first: seq<Record>, second: Result<seq<Record>, Exception>)
    requires cache.None? || key !in cache.value
    ensures var (r1, used1, c1) := Lookup(cache, true, key, Success(first));
            && r1 == Success(first) && !used1
            && Lookup(c1, true, key, second) == (Success(first), true, c1)
  {
  }

  /** After a clear, every lookup is a miss. */
  lemma ClearedMisses(cache: Option<map<string, seq<Record>>>, key: string, computed: Result<seq<Record>, Exception>)
    requires Cleared(cache).1
    ensures Lookup(Cleared(cache).0, true, key, computed).0 == computed
    ensures !Lookup(Cleared(cache).0, true, key, computed).1
  {
  }

  /** With caching off the cache is not touched. */
  lemma CacheOffUntouched(cache: Option<map<string, seq<Record>>>, key: string, computed: Result<seq<Record>, Exception>)
    ensures Lookup(cache, false, key, computed) == (computed, false, cache)
  {
  }
}
