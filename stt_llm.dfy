/** The single-file transcription client (sources/core/stt_llm.py): JSON
    span extraction, MIME normalisation, and the upload / generate / retry
    state machine of `transcript_audio` with its cleanup.

    The remote service is an oracle: the outcome of the upload and of the
    generate call of each attempt, the outcome of the one possible
    fallback call, the outcome of each `files.delete`, and what
    `client.files.list()` yields before it ends or raises. What the
    client does to the service (uploads, deletions, calls, key rotations,
    waits) is recorded in a ghost log of events. */
module SttLlm {
  import opened Common
  import opened Strings
  import opened Credentials

  /* ---------------- parse_response ---------------- */

  const ParseFailure: string := "Không thể phân tích kết quả thành JSON: "
  const NoJsonFound: string := "Không tìm thấy định dạng JSON hợp lệ"

  /** `s.find(c)`: the first index of `c`, or -1. */
  function Find(s: string, c: char): (r: int)
    ensures -1 <= r < |s|
    ensures r == -1 <==> c !in s
    ensures r >= 0 ==> s[r] == c && forall k :: 0 <= k < r ==> s[k] != c
  {
    if s == [] then -1
    else if s[0] == c then 0
    else
      var r := Find(s[1..], c);
      assert forall k :: 1 <= k < |s| ==> s[k] == s[1..][k - 1];
      if r == -1 then -1 else r + 1
  }

  /** `s.rfind(c)`: the last index of `c`, or -1. */
  function RFind(s: string, c: char): (r: int)
    ensures -1 <= r < |s|
    ensures r == -1 <==> c !in s
    ensures r >= 0 ==> s[r] == c && forall k :: r < k < |s| ==> s[k] != c
  {
    if s == [] then -1
    else if s[|s| - 1] == c then |s| - 1
    else
      var r := RFind(s[..|s| - 1], c);
      assert forall k :: 0 <= k < |s| - 1 ==> s[k] == s[..|s| - 1][k];
      r
  }

  /** Python's `s[i:j]` for `0 <= i` and `0 <= j <= len(s)`: empty when
      the bounds are crossed. */
  function Slice(s: string, i: nat, j: nat): (r: string)
    requires i <= |s| && j <= |s|
    ensures |r| == if i <= j then j - i else 0
  {
    if i <= j then s[i..j] else []
  }

  /** A reply as the caller of `parse_response` sees it: the decoded list,
      or the ValueError that wraps the reason. */
  function Decoded(loaded: Result<seq<Record>, string>): Result<seq<Record>, Exception> {
    match loaded
    case Success(v) => Success(v)
    case Failure(e) => Failure(Exception(ValueError, ParseFailure + e))
  }

  /** `parse_response`: decode the text from the first '[' to the last ']'
      inclusive. `loads` is `json.loads`, its failure the decoder's
      message. */
  function ParseResponse(text: string, loads: string -> Result<seq<Record>, string>): (r: Result<seq<Record>, Exception>)
    ensures r.Failure? ==> r.error.kind == ValueError && StartsWith(r.error.message, ParseFailure)
    ensures '[' !in text || ']' !in text ==> r == Failure(Exception(ValueError, ParseFailure + NoJsonFound))
  {
    var start := Find(text, '[');
    var end := RFind(text, ']') + 1;
    if start == -1 || end == 0 then Failure(Exception(ValueError, ParseFailure + NoJsonFound))
    else Decoded(loads(Slice(text, start, end)))
  }

  /** A JSON array embedded in chatter is decoded exactly: whatever comes
      before its '[' holds no '[' and whatever follows its ']' holds no ']'. */
  lemma ParseResponseEmbedded(before: string, body: string, after: string,
                              loads: string -> Result<seq<Record>, string>)
    requires |body| >= 2 && body[0] == '[' && body[|body| - 1] == ']'
    requires '[' !in before && ']' !in after
    ensures ParseResponse(before + body + after, loads) == Decoded(loads(body))
  {
    var text := before + body + after;
    var i, j := |before|, |before| + |body|;
    assert text[i] == '[';
    assert text[j - 1] == ']';
    assert forall k :: 0 <= k < i ==> text[k] == before[k];
    assert forall k :: j <= k < |text| ==> text[k] == after[k - j];
    assert Find(text, '[') == i;
    assert RFind(text, ']') == j - 1;
    assert text[i..j] == body;
  }

  /** When the last ']' comes before the first '[', the slice is empty and
      the empty string is what gets decoded. */
  lemma ParseResponseCrossed(text: string, loads: string -> Result<seq<Record>, string>)
    requires '[' in text && ']' in text
    requires RFind(text, ']') < Find(text, '[')
    ensures ParseResponse(text, loads) == Decoded(loads(""))
  {
  }

  /* ---------------- get_normalized_mime_type ---------------- */

  /** `mime_mapping` restricted to the keys a type under `audio/` can hit. */
  function MimeAlias(m: string): string {
    if m == "audio/x-wav" then "audio/wav"
    else if m == "audio/x-mp3" || m == "audio/mp3" then "audio/mpeg"
    else m
  }

  predicate IsAudioType(m: string) {
    StartsWith(m, "audio/")
  }

  /** The extensions the fallback table knows, compared case-insensitively. */
  predicate KnownExtension(filename: string) {
    var low := Lower(filename);
    EndsWith(low, ".wav") || EndsWith(low, ".mp3") || EndsWith(low, ".mpeg")
      || EndsWith(low, ".ogg") || EndsWith(low, ".flac")
  }

  /** `get_normalized_mime_type`: `magic` is what python-magic reads from
      the content, `guessed` what `mimetypes.guess_type(filename)` gives. */
  function NormalizedMimeType(magic: string, guessed: Option<string>, filename: string): (r: string)
    // a detected audio type wins, with its aliases folded
    ensures IsAudioType(magic) ==> r == MimeAlias(magic)
    // the result is an audio type exactly when one of the first three rules applies
    ensures IsAudioType(r) <==>
              IsAudioType(magic) || (guessed.Some? && IsAudioType(guessed.value)) || KnownExtension(filename)
    // nothing applies: the detected type, unchanged
    ensures (!IsAudioType(magic) && !(guessed.Some? && IsAudioType(guessed.value)) && !KnownExtension(filename))
              ==> r == magic
  {
    if IsAudioType(magic) then MimeAlias(magic)
    else if guessed.Some? && IsAudioType(guessed.value) then guessed.value
    else
      var low := Lower(filename);
      if EndsWith(low, ".wav") then "audio/wav"
      else if EndsWith(low, ".mp3") || EndsWith(low, ".mpeg") then "audio/mpeg"
      else if EndsWith(low, ".ogg") then "audio/ogg"
      else if EndsWith(low, ".flac") then "audio/flac"
      else magic
  }

  /** The extension rule ignores case. */
  lemma MimeIgnoresCase(magic: string, guessed: Option<string>, filename: string)
    ensures NormalizedMimeType(magic, guessed, Lower(filename)) == NormalizedMimeType(magic, guessed, filename)
  {
    LowerIdempotent(filename);
  }

  /** Normalising twice changes nothing more when the type came from the
      content. */
  lemma MimeAliasIdempotent(magic: string, guessed: Option<string>, filename: string)
    requires IsAudioType(magic)
    ensures var r := NormalizedMimeType(magic, guessed, filename);
            NormalizedMimeType(r, guessed, filename) == r
  {
  }

  /** The aliases are folded only for the detected type: an `audio/x-wav`
      guessed from the name is passed on as it is. */
  lemma GuessedTypeNotFolded(magic: string, filename: string)
    requires !IsAudioType(magic)
    ensures NormalizedMimeType(magic, Some("audio/x-wav"), filename) == "audio/x-wav"
  {
  }

  /* ---------------- the retry state machine of transcript_audio ---------------- */

  /** The lowercase-substring classes of a failed attempt. */
  datatype ErrorClass = RateLimited | Overloaded | OtherFailure

  function Classify(message: string): (c: ErrorClass)
    ensures c == RateLimited <==> Contains(Lower(message), "rate limit") || Contains(Lower(message), "quota")
  {
    var m := Lower(message);
    if Contains(m, "rate limit") || Contains(m, "quota") then RateLimited
    else if Contains(m, "overloaded") || Contains(m, "unavailable") || Contains(m, "busy") then Overloaded
    else OtherFailure
  }

  /** The outcome of one remote call: its value, or the exception it raised. */
  datatype Reply<T> = Ok(value: T) | Raised(error: Exception)

  /** The remote service, as far as one `transcript_audio` call sees it:
      `upload(a)` and `generate(a)` are the outcomes of attempt `a`'s upload
      (the handle name) and generate call (`response.text`), `fallback` the
      outcome of the one "-lite"-less call, `delete(c)` the outcome of the
      `files.delete` call `c`, `listing` the names `client.files.list()`
      yields, after which it raises `listError` if that is set, and `loads`
      is `json.loads`. */
  datatype Remote = Remote(
    upload: nat -> Reply<string>,
    generate: nat -> Reply<string>,
    fallback: Reply<string>,
    delete: DeleteCall -> Reply<()>,
    listing: seq<string>,
    listError: Option<Exception>,
    loads: string -> Result<seq<Record>, string>)

  /** The `files.delete` calls of one call: the previous upload's, before
      attempt `attempt` uploads again; the last upload's, in `finally`; and
      that of entry `index` of the listing. */
  datatype DeleteCall = BeforeAttempt(attempt: nat) | AfterLoop | ListedEntry(index: nat)

  /** What the client does to the outside world, in order. */
  datatype Event =
    | Uploading(mime: string)                 // files.upload with this config
    | Uploaded(name: string)                  // ... which returned this handle
    | Called(model: string)                   // models.generate_content
    | Fallback(model: string, file: Option<string>)  // the "-lite"-less retry, on this handle
    | Deleted(name: string)                   // files.delete, which succeeded
    | DeleteFailed(name: string)              // files.delete, which raised (the error is printed)
    | Listed                                  // files.list in the cleanup
    | ListFailed                              // ... whose pager raised (the error is printed)
    | Rotated(index: nat)                     // change_api_key, to this cursor
    | Slept(seconds: nat)                     // time.sleep

  /** The loop variables of `transcript_audio`: the last successful upload
      (`uploaded_file`), the key cursor, the current value of `max_retries`,
      the events so far, and the outcome once the loop has returned or
      raised. */
  datatype Loop = Loop(uploaded: Option<string>, key: nat, budget: int, log: seq<Event>,
                       done: Option<Result<seq<Record>, Exception>>)

  function Pow2(n: nat): (r: nat)
    ensures r >= 1
  {
    if n == 0 then 1 else 2 * Pow2(n - 1)
  }

  /** `except` on the last attempt after an overload: wait 10 s more and
      raise `max_retries` (which only the final error message reads). */
  function LastChance(st: Loop, last: bool): Loop {
    if last then st.(log := st.log + [Slept(10)], budget := st.budget + 1) else st
  }

  /** A rate limit or an exhausted quota: rotate the key, wait 1 s. */
  function RateLimitRetry(count: nat, st: Loop): Loop
    requires count > 0
  {
    var k := Next(st.key, count);
    st.(key := k, log := st.log + [Rotated(k), Slept(1)])
  }

  /** An overloaded, unavailable or busy model: back off exponentially (at
      most 30 s); on the last attempt try the model without "-lite" once,
      then wait 10 s more and raise `max_retries`. */
  function OverloadRetry(remote: Remote, model: string, a: nat, st: Loop): Loop {
    var last := a == st.budget - 1;
    var waited := st.(log := st.log + [Slept(Min(30, Pow2(a) + 1))]);
    if last && Contains(model, "-lite") then
      var tried := waited.(log := waited.log + [Fallback(ReplaceAll(model, "-lite", ""), st.uploaded)]);
      if remote.fallback.Ok? && ParseResponse(remote.fallback.value, remote.loads).Success? then
        tried.(done := Some(ParseResponse(remote.fallback.value, remote.loads)))
      else LastChance(tried, last)
    else LastChance(waited, last)
  }

  /** Any other failure: wait `2 * (attempt + 1)` s if attempts remain,
      otherwise raise it again. */
  function OtherRetry(a: nat, st: Loop, e: Exception): Loop {
    if a != st.budget - 1 then st.(log := st.log + [Slept(2 * (a + 1))])
    else st.(done := Some(Failure(e)))
  }

  /** The `except Exception` branch of attempt `a` for the exception `e`. */
  function Recover(remote: Remote, model: string, count: nat, a: nat, st: Loop, e: Exception): Loop
    requires count > 0
  {
    match Classify(e.message)
    case RateLimited => RateLimitRetry(count, st)
    case Overloaded => OverloadRetry(remote, model, a, st)
    case OtherFailure => OtherRetry(a, st, e)
  }

  /** The event a `files.delete` of `name` leaves: done, or raised and
      only printed. */
  function Deletion(reply: Reply<()>, name: string): Event {
    if reply.Ok? then Deleted(name) else DeleteFailed(name)
  }

  /** The start of attempt `a`: delete the previous upload if there is
      one (a failure is printed and the attempt goes on), then upload with
      the normalised type. */
  function Prepare(remote: Remote, a: nat, st: Loop, mime: string): Loop {
    var dropped := if st.uploaded.Some? then [Deletion(remote.delete(BeforeAttempt(a)), st.uploaded.value)] else [];
    st.(log := st.log + dropped + [Uploading(mime)])
  }

  /** The upload returned handle `h`; the model is called on it. */
  function Received(st: Loop, h: string, model: string): Loop {
    st.(uploaded := Some(h), log := st.log + [Uploaded(h), Called(model)])
  }

  /** The generate call of attempt `a` and the parsing of its text. */
  function Respond(remote: Remote, model: string, count: nat, a: nat, st: Loop): Loop
    requires count > 0
  {
    match remote.generate(a)
    case Raised(e) => Recover(remote, model, count, a, st, e)
    case Ok(text) =>
      match ParseResponse(text, remote.loads)
      case Success(v) => st.(done := Some(Success(v)))
      case Failure(e) => Recover(remote, model, count, a, st, e)
  }

  /** The `try` body of attempt `a`: drop the previous upload, upload,
      generate, parse. */
  function Attempt(remote: Remote, model: string, mime: string, count: nat, a: nat, st: Loop): Loop
    requires count > 0
  {
    var st0 := Prepare(remote, a, st, mime);
    match remote.upload(a)
    case Raised(e) => Recover(remote, model, count, a, st0, e)
    case Ok(h) => Respond(remote, model, count, a, Received(st0, h, model))
  }

  /** `for attempt in range(n)` from attempt `a` on, until an attempt
      returns or raises. The range is fixed: `budget` does not extend it. */
  function Attempts(remote: Remote, model: string, mime: string, count: nat, a: nat, n: int, st: Loop): Loop
    requires count > 0
    decreases n - a
  {
    if st.done.Some? || a >= n then st
    else Attempts(remote, model, mime, count, a + 1, n, Attempt(remote, model, mime, count, a, st))
  }

  /** The error the exhausted loop raises. */
  function Exhausted(budget: int): Exception {
    Exception(RuntimeError, "Không thể phiên âm sau " + IntToString(budget) + " lần thử lại")
  }

  /** The `finally` clause: delete the last upload in a `try` of its own,
      then list the files and delete each in turn. */
  function Cleanup(remote: Remote, uploaded: Option<string>): (events: seq<Event>)
    ensures uploaded.Some? ==> |events| > 0 && events[0] in {Deleted(uploaded.value), DeleteFailed(uploaded.value)}
    ensures Listed in events
    ensures forall i :: 0 <= i < |events| ==> Cleaning(events[i])
  {
    (if uploaded.Some? then [Deletion(remote.delete(AfterLoop), uploaded.value)] else [])
      + [Listed] + Leftovers(remote, 0)
  }

  /** The events of the cleanup: deletions and the listing, whether they
      succeeded or raised. */
  predicate Cleaning(e: Event) {
    e.Deleted? || e.DeleteFailed? || e.Listed? || e.ListFailed?
  }

  /** The listing loop from entry `i` on. It sits in one `try`: the first
      deletion that raises ends it, and so does a pager that raises. */
  function Leftovers(remote: Remote, i: nat): (events: seq<Event>)
    ensures forall k :: 0 <= k < |events| ==> Cleaning(events[k])
    decreases |remote.listing| - i
  {
    if i >= |remote.listing| then (if remote.listError.Some? then [ListFailed] else [])
    else if remote.delete(ListedEntry(i)).Raised? then [DeleteFailed(remote.listing[i])]
    else [Deleted(remote.listing[i])] + Leftovers(remote, i + 1)
  }

  /** The first entry from `i` on whose deletion raises, or the end of the
      listing. */
  function FirstFailure(remote: Remote, i: nat): (k: nat)
    requires i <= |remote.listing|
    ensures i <= k <= |remote.listing|
    ensures forall j :: i <= j < k ==> remote.delete(ListedEntry(j)).Ok?
    ensures k < |remote.listing| ==> remote.delete(ListedEntry(k)).Raised?
    decreases |remote.listing| - i
  {
    if i == |remote.listing| || remote.delete(ListedEntry(i)).Raised? then i
    else FirstFailure(remote, i + 1)
  }

  /** A successful deletion of each name, in order. */
  function DeletedRun(names: seq<string>): (events: seq<Event>)
    ensures |events| == |names|
    ensures forall j :: 0 <= j < |names| ==> events[j] == Deleted(names[j])
  {
    if names == [] then [] else [Deleted(names[0])] + DeletedRun(names[1..])
  }

  /** How the listing loop ends once it reaches entry `k`: that entry's
      failed deletion, or the pager's error, if any. */
  function ListingEnd(remote: Remote, k: nat): seq<Event> {
    if k < |remote.listing| then [DeleteFailed(remote.listing[k])]
    else if remote.listError.Some? then [ListFailed] else []
  }

  /** The listing loop deletes the entries before the first failing
      deletion, records that failure, and attempts nothing after it; when
      every deletion succeeds it ends with the pager's error, if any. */
  lemma {:induction false} LeftoversStop(remote: Remote, i: nat)
    requires i <= |remote.listing|
    ensures var k := FirstFailure(remote, i);
            Leftovers(remote, i) == DeletedRun(remote.listing[i..k]) + ListingEnd(remote, k)
    decreases |remote.listing| - i
  {
    if i < |remote.listing| && remote.delete(ListedEntry(i)).Ok? {
      var k := FirstFailure(remote, i);
      LeftoversStop(remote, i + 1);
      assert remote.listing[i..k][1..] == remote.listing[i + 1..k];
    }
  }

  /** When no deletion of the listing raises, the loop records no failed
      deletion. */
  lemma {:induction false} LeftoversNoFailure(remote: Remote, i: nat)
    requires forall j :: i <= j < |remote.listing| ==> remote.delete(ListedEntry(j)).Ok?
    ensures forall k :: 0 <= k < |Leftovers(remote, i)| ==> !Leftovers(remote, i)[k].DeleteFailed?
    decreases |remote.listing| - i
  {
    if i < |remote.listing| {
      LeftoversNoFailure(remote, i + 1);
    }
  }

  /** The outcome of the whole call once the loop is over. */
  function Outcome(st: Loop): Result<seq<Record>, Exception> {
    if st.done.Some? then st.done.value else Failure(Exhausted(st.budget))
  }

  /** What `transcript_audio` does and returns for the loop bound `n` once
      the file is read and its MIME type known: the outcome, every event,
      and the final key cursor. */
  function Transcribe(remote: Remote, model: string, mime: string, count: nat, start: nat, n: int)
    : (Result<seq<Record>, Exception>, seq<Event>, nat)
    requires count > 0
  {
    var st := Run(remote, model, mime, count, start, n);
    (Outcome(st), st.log + Cleanup(remote, st.uploaded), st.key)
  }

  /** The loop state once `for attempt in range(n)` is over, from no upload,
      cursor `start`, `max_retries == n` and an empty log. */
  function Run(remote: Remote, model: string, mime: string, count: nat, start: nat, n: int): Loop
    requires count > 0
  {
    Attempts(remote, model, mime, count, 0, n, Loop(None, start, n, [], None))
  }

  /* ---- lemmas about the retry state machine ---- */

  function CountUploads(log: seq<Event>): nat {
    if log == [] then 0
    else CountUploads(log[..|log| - 1]) + (if log[|log| - 1].Uploading? then 1 else 0)
  }

  function CountRotations(log: seq<Event>): nat {
    if log == [] then 0
    else CountRotations(log[..|log| - 1]) + (if log[|log| - 1].Rotated? then 1 else 0)
  }

  function CountFallbacks(log: seq<Event>): nat {
    if log == [] then 0
    else CountFallbacks(log[..|log| - 1]) + (if log[|log| - 1].Fallback? then 1 else 0)
  }

  /** The handles uploaded by the log and not deleted since: what it left on
      the server. */
  function Pending(log: seq<Event>): set<string> {
    if log == [] then {}
    else
      var e := log[|log| - 1];
      var p := Pending(log[..|log| - 1]);
      if e.Uploaded? then p + {e.name} else if e.Deleted? then p - {e.name} else p
  }

  /** The names whose deletion the log shows raising. */
  function Failed(log: seq<Event>): set<string> {
    if log == [] then {}
    else
      var e := log[|log| - 1];
      var f := Failed(log[..|log| - 1]);
      if e.DeleteFailed? then f + {e.name} else f
  }

  /** The handle `uploaded_file` still names, as a set. */
  function Live(uploaded: Option<string>): set<string> {
    if uploaded.Some? then {uploaded.value} else {}
  }

  lemma {:induction false} CountsAppend(a: seq<Event>, b: seq<Event>)
    ensures CountUploads(a + b) == CountUploads(a) + CountUploads(b)
    ensures CountRotations(a + b) == CountRotations(a) + CountRotations(b)
    ensures CountFallbacks(a + b) == CountFallbacks(a) + CountFallbacks(b)
    decreases |b|
  {
    if b == [] {
      assert a + b == a;
    } else {
      assert (a + b)[..|a + b| - 1] == a + b[..|b| - 1];
      CountsAppend(a, b[..|b| - 1]);
    }
  }

  lemma CountsPush(log: seq<Event>, e: Event)
    ensures CountUploads(log + [e]) == CountUploads(log) + (if e.Uploading? then 1 else 0)
    ensures CountRotations(log + [e]) == CountRotations(log) + (if e.Rotated? then 1 else 0)
    ensures CountFallbacks(log + [e]) == CountFallbacks(log) + (if e.Fallback? then 1 else 0)
    ensures Pending(log + [e]) ==
              if e.Uploaded? then Pending(log) + {e.name} else if e.Deleted? then Pending(log) - {e.name} else Pending(log)
    ensures Failed(log + [e]) == if e.DeleteFailed? then Failed(log) + {e.name} else Failed(log)
  {
    assert (log + [e])[..|log|] == log;
  }

  /** Events are only ever appended. */
  predicate Extends(log: seq<Event>, log': seq<Event>) {
    |log| <= |log'| && log'[..|log|] == log
  }

  /** The key cursor is the start cursor moved once per rotation logged. */
  predicate KeyTracks(start: nat, count: nat, st: Loop)
    requires start < count
  {
    st.key == Advance(start, CountRotations(st.log), count)
  }

  /** Facts about one `except` branch: what it appends to the log and how
      it moves the key. */
  lemma RateLimitLog(count: nat, st: Loop)
    requires count > 0
    ensures var r := RateLimitRetry(count, st);
            && Extends(st.log, r.log) && r.uploaded == st.uploaded
            && CountUploads(r.log) == CountUploads(st.log)
            && CountFallbacks(r.log) == CountFallbacks(st.log)
            && CountRotations(r.log) == CountRotations(st.log) + 1
            && Pending(r.log) == Pending(st.log) && Failed(r.log) == Failed(st.log)
  {
    var k := Next(st.key, count);
    assert RateLimitRetry(count, st).log == st.log + [Rotated(k)] + [Slept(1)];
    CountsPush(st.log, Rotated(k));
    CountsPush(st.log + [Rotated(k)], Slept(1));
  }

  lemma OverloadLog(remote: Remote, model: string, a: nat, st: Loop)
    ensures var r := OverloadRetry(remote, model, a, st);
            && Extends(st.log, r.log) && r.uploaded == st.uploaded && r.key == st.key
            && CountUploads(r.log) == CountUploads(st.log)
            && CountRotations(r.log) == CountRotations(st.log)
            && CountFallbacks(r.log) == CountFallbacks(st.log)
                 + (if a == st.budget - 1 && Contains(model, "-lite") then 1 else 0)
            && Pending(r.log) == Pending(st.log) && Failed(r.log) == Failed(st.log)
  {
    var again := OverloadEvents(remote, model, a, st);
    var lite := a == st.budget - 1 && Contains(model, "-lite");
    WaitsLog(st.log, Min(30, Pow2(a) + 1), Fallback(ReplaceAll(model, "-lite", ""), st.uploaded), lite, again);
  }

  /** What the overload branch appends: the back-off wait, the fallback
      call on the last attempt of a "-lite" model, and the extra wait
      unless that call answered. */
  lemma OverloadEvents(remote: Remote, model: string, a: nat, st: Loop) returns (again: bool)
    ensures var r := OverloadRetry(remote, model, a, st);
            var lite := a == st.budget - 1 && Contains(model, "-lite");
            && r.uploaded == st.uploaded && r.key == st.key
            && r.log == st.log + [Slept(Min(30, Pow2(a) + 1))]
                 + (if lite then [Fallback(ReplaceAll(model, "-lite", ""), st.uploaded)] else [])
                 + (if again then [Slept(10)] else [])
  {
    var lite := a == st.budget - 1 && Contains(model, "-lite");
    var answered := remote.fallback.Ok? && ParseResponse(remote.fallback.value, remote.loads).Success?;
    again := a == st.budget - 1 && !(lite && answered);
    if !lite {
      assert st.log + [Slept(Min(30, Pow2(a) + 1))] + [] == st.log + [Slept(Min(30, Pow2(a) + 1))];
    }
    if !again {
      assert st.log + [Slept(Min(30, Pow2(a) + 1))]
                 + (if lite then [Fallback(ReplaceAll(model, "-lite", ""), st.uploaded)] else []) + []
          == st.log + [Slept(Min(30, Pow2(a) + 1))]
                 + (if lite then [Fallback(ReplaceAll(model, "-lite", ""), st.uploaded)] else []);
    }
  }

  /** A wait, possibly one fallback call, possibly a second wait: the
      counters move by the fallback call alone. */
  lemma WaitsLog(log: seq<Event>, secs: nat, f: Event, fallback: bool, again: bool)
    requires f.Fallback?
    ensures var r := log + [Slept(secs)] + (if fallback then [f] else []) + (if again then [Slept(10)] else []);
            && Extends(log, r)
            && CountUploads(r) == CountUploads(log)
            && CountRotations(r) == CountRotations(log)
            && CountFallbacks(r) == CountFallbacks(log) + (if fallback then 1 else 0)
            && Pending(r) == Pending(log) && Failed(r) == Failed(log)
  {
    var w := log + [Slept(secs)];
    CountsPush(log, Slept(secs));
    var t := w + (if fallback then [f] else []);
    if fallback {
      CountsPush(w, f);
    } else {
      assert t == w;
    }
    if again {
      CountsPush(t, Slept(10));
    } else {
      assert t + [] == t;
    }
  }

  lemma OtherLog(a: nat, st: Loop, e: Exception)
    ensures var r := OtherRetry(a, st, e);
            && Extends(st.log, r.log) && r.uploaded == st.uploaded && r.key == st.key
            && CountUploads(r.log) == CountUploads(st.log)
            && CountRotations(r.log) == CountRotations(st.log)
            && CountFallbacks(r.log) == CountFallbacks(st.log)
            && Pending(r.log) == Pending(st.log) && Failed(r.log) == Failed(st.log)
  {
    CountsPush(st.log, Slept(2 * (a + 1)));
  }

  lemma RecoverLog(remote: Remote, model: string, count: nat, a: nat, st: Loop, e: Exception)
    requires count > 0
    ensures var r := Recover(remote, model, count, a, st, e);
            && Extends(st.log, r.log)
            && r.uploaded == st.uploaded
            && CountUploads(r.log) == CountUploads(st.log)
            && CountRotations(r.log) >= CountRotations(st.log)
            && CountFallbacks(r.log) <= CountFallbacks(st.log)
                 + (if a == st.budget - 1 && Contains(model, "-lite") then 1 else 0)
  {
    match Classify(e.message)
    case RateLimited => RateLimitLog(count, st);
    case Overloaded => OverloadLog(remote, model, a, st);
    case OtherFailure => OtherLog(a, st, e);
  }

  /** How an `except` branch ends: a rate limit or a non-final failure
      goes on to the next attempt; an overload on the last attempt raises
      `max_retries`; only an unclassified failure on the last attempt is
      raised, and only the fallback call can return. */
  lemma RecoverOutcome(remote: Remote, model: string, count: nat, a: nat, st: Loop, e: Exception)
    requires count > 0 && st.done.None?
    ensures var r := Recover(remote, model, count, a, st, e);
            && (r.done.None? ==>
                  r.budget == st.budget + (if Classify(e.message) == Overloaded && a == st.budget - 1 then 1 else 0))
            && (r.done.Some? ==> a == st.budget - 1)
            && (r.done.Some? && r.done.value.Failure? ==>
                  r.done.value.error == e && Classify(e.message) == OtherFailure)
            && (r.done.Some? && r.done.value.Success? ==>
                  remote.fallback.Ok? && ParseResponse(remote.fallback.value, remote.loads) == r.done.value)
            && (Classify(e.message) == RateLimited ==> r.done.None?)
  {
  }

  lemma ExtendsTrans(a: seq<Event>, b: seq<Event>, c: seq<Event>)
    requires Extends(a, b) && Extends(b, c)
    ensures Extends(a, c)
  {
    assert c[..|a|] == c[..|b|][..|a|];
  }

  /** The previous upload is gone from the server when its deletion
      succeeds, and recorded as failed otherwise. */
  lemma PrepareLog(remote: Remote, a: nat, st: Loop, mime: string)
    ensures var r := Prepare(remote, a, st, mime);
            var gone := remote.delete(BeforeAttempt(a)).Ok?;
            && Extends(st.log, r.log) && r.key == st.key && r.budget == st.budget && r.done == st.done
            && CountUploads(r.log) == CountUploads(st.log) + 1
            && CountRotations(r.log) == CountRotations(st.log)
            && CountFallbacks(r.log) == CountFallbacks(st.log)
            && Pending(r.log) == (if gone then Pending(st.log) - Live(st.uploaded) else Pending(st.log))
            && Failed(r.log) == (if gone then Failed(st.log) else Failed(st.log) + Live(st.uploaded))
  {
    if st.uploaded.Some? {
      var d := Deletion(remote.delete(BeforeAttempt(a)), st.uploaded.value);
      CountsPush(st.log, d);
      CountsPush(st.log + [d], Uploading(mime));
      assert Prepare(remote, a, st, mime).log[..|st.log|] == st.log;
    } else {
      assert st.log + [] == st.log;
      CountsPush(st.log, Uploading(mime));
    }
  }

  lemma ReceivedLog(st: Loop, h: string, model: string)
    ensures var r := Received(st, h, model);
            && Extends(st.log, r.log) && r.key == st.key && r.budget == st.budget && r.done == st.done
            && CountUploads(r.log) == CountUploads(st.log)
            && CountRotations(r.log) == CountRotations(st.log)
            && CountFallbacks(r.log) == CountFallbacks(st.log)
            && Pending(r.log) == Pending(st.log) + {h} && Failed(r.log) == Failed(st.log)
  {
    CountsPush(st.log, Uploaded(h));
    CountsPush(st.log + [Uploaded(h)], Called(model));
    assert Received(st, h, model).log == st.log + [Uploaded(h)] + [Called(model)];
  }

  lemma RespondLog(remote: Remote, model: string, count: nat, a: nat, st: Loop)
    requires count > 0
    ensures var r := Respond(remote, model, count, a, st);
            && Extends(st.log, r.log)
            && CountUploads(r.log) == CountUploads(st.log)
            && CountRotations(r.log) >= CountRotations(st.log)
            && CountFallbacks(r.log) <= CountFallbacks(st.log)
                 + (if a == st.budget - 1 && Contains(model, "-lite") then 1 else 0)
  {
    match remote.generate(a)
    case Raised(e) => RecoverLog(remote, model, count, a, st, e);
    case Ok(text) =>
      match ParseResponse(text, remote.loads)
      case Success(v) =>
      case Failure(e) => RecoverLog(remote, model, count, a, st, e);
  }

  /** Facts about one attempt. */
  lemma AttemptLog(remote: Remote, model: string, mime: string, count: nat, a: nat, st: Loop)
    requires count > 0
    ensures var r := Attempt(remote, model, mime, count, a, st);
            && Extends(st.log, r.log)
            && CountUploads(r.log) == CountUploads(st.log) + 1
            && CountRotations(r.log) >= CountRotations(st.log)
            && CountFallbacks(r.log) <= CountFallbacks(st.log) + (if a == st.budget - 1 && Contains(model, "-lite") then 1 else 0)
  {
    var st0 := Prepare(remote, a, st, mime);
    PrepareLog(remote, a, st, mime);
    var r := Attempt(remote, model, mime, count, a, st);
    match remote.upload(a)
    case Raised(e) =>
      RecoverLog(remote, model, count, a, st0, e);
      ExtendsTrans(st.log, st0.log, r.log);
    case Ok(h) =>
      var st1 := Received(st0, h, model);
      ReceivedLog(st0, h, model);
      RespondLog(remote, model, count, a, st1);
      ExtendsTrans(st.log, st0.log, st1.log);
      ExtendsTrans(st.log, st1.log, r.log);
  }

  /** A rotation moves the key cursor one step; no other branch touches
      the key or logs a rotation. */
  lemma RateLimitKey(start: nat, count: nat, st: Loop)
    requires start < count && KeyTracks(start, count, st)
    ensures KeyTracks(start, count, RateLimitRetry(count, st))
  {
    RateLimitLog(count, st);
  }

  lemma RecoverKey(remote: Remote, model: string, start: nat, count: nat, a: nat, st: Loop, e: Exception)
    requires start < count && KeyTracks(start, count, st)
    ensures KeyTracks(start, count, Recover(remote, model, count, a, st, e))
  {
    match Classify(e.message)
    case RateLimited => RateLimitKey(start, count, st);
    case Overloaded => OverloadLog(remote, model, a, st);
    case OtherFailure => OtherLog(a, st, e);
  }

  lemma RespondKey(remote: Remote, model: string, start: nat, count: nat, a: nat, st: Loop)
    requires start < count && KeyTracks(start, count, st)
    ensures KeyTracks(start, count, Respond(remote, model, count, a, st))
  {
    match remote.generate(a)
    case Raised(e) => RecoverKey(remote, model, start, count, a, st, e);
    case Ok(text) =>
      match ParseResponse(text, remote.loads)
      case Success(v) =>
      case Failure(e) => RecoverKey(remote, model, start, count, a, st, e);
  }

  lemma AttemptKey(remote: Remote, model: string, mime: string, start: nat, count: nat, a: nat, st: Loop)
    requires start < count && KeyTracks(start, count, st)
    ensures KeyTracks(start, count, Attempt(remote, model, mime, count, a, st))
  {
    var st0 := Prepare(remote, a, st, mime);
    PrepareLog(remote, a, st, mime);
    match remote.upload(a)
    case Raised(e) => RecoverKey(remote, model, start, count, a, st0, e);
    case Ok(h) =>
      ReceivedLog(st0, h, model);
      RespondKey(remote, model, start, count, a, Received(st0, h, model));
  }

  /** The answers the service gave that the client could have returned. */
  ghost predicate Answered(remote: Remote, n: int, v: seq<Record>) {
    || (exists a: nat :: a < n && remote.generate(a).Ok? && ParseResponse(remote.generate(a).value, remote.loads) == Success(v))
    || (remote.fallback.Ok? && ParseResponse(remote.fallback.value, remote.loads) == Success(v))
  }

  lemma RespondOutcome(remote: Remote, model: string, count: nat, a: nat, st: Loop)
    requires count > 0 && st.done.None?
    ensures var r := Respond(remote, model, count, a, st);
            && (r.done.None? ==> r.budget == st.budget || (a == st.budget - 1 && r.budget == st.budget + 1))
            && (r.done.Some? && r.done.value.Failure? ==>
                  a == st.budget - 1 && Classify(r.done.value.error.message) == OtherFailure)
            && (r.done.Some? && r.done.value.Success? ==> Answered(remote, a + 1, r.done.value.value))
  {
    match remote.generate(a)
    case Raised(e) => RecoverOutcome(remote, model, count, a, st, e);
    case Ok(text) =>
      match ParseResponse(text, remote.loads)
      case Success(v) =>
      case Failure(e) => RecoverOutcome(remote, model, count, a, st, e);
  }

  lemma AttemptOutcome(remote: Remote, model: string, mime: string, count: nat, a: nat, st: Loop)
    requires count > 0 && st.done.None?
    ensures var r := Attempt(remote, model, mime, count, a, st);
            && (r.done.None? ==> r.budget == st.budget || (a == st.budget - 1 && r.budget == st.budget + 1))
            && (r.done.Some? && r.done.value.Failure? ==>
                  a == st.budget - 1 && Classify(r.done.value.error.message) == OtherFailure)
            && (r.done.Some? && r.done.value.Success? ==> Answered(remote, a + 1, r.done.value.value))
  {
    var st0 := Prepare(remote, a, st, mime);
    match remote.upload(a)
    case Raised(e) => RecoverOutcome(remote, model, count, a, st0, e);
    case Ok(h) => RespondOutcome(remote, model, count, a, Received(st0, h, model));
  }

  /** Max(x, 0) */
  function Attempted(n: int): nat {
    if n > 0 then n else 0
  }

  /** The loop from attempt `a` on only appends to the log, and makes one
      upload per attempt; when no attempt returns, every attempt in range
      is made. */
  lemma {:induction false} AttemptsUploads(remote: Remote, model: string, mime: string, count: nat, a: nat, n: nat, st: Loop)
    requires count > 0
    requires st.done.None? && a <= n
    ensures Extends(st.log, Attempts(remote, model, mime, count, a, n, st).log)
    ensures CountUploads(st.log) <= CountUploads(Attempts(remote, model, mime, count, a, n, st).log)
    ensures CountUploads(Attempts(remote, model, mime, count, a, n, st).log) <= CountUploads(st.log) + n - a
    ensures Attempts(remote, model, mime, count, a, n, st).done.None? ==>
              CountUploads(Attempts(remote, model, mime, count, a, n, st).log) == CountUploads(st.log) + n - a
    decreases n - a
  {
    if a < n {
      var st1 := Attempt(remote, model, mime, count, a, st);
      AttemptLog(remote, model, mime, count, a, st);
      if st1.done.None? {
        var r := Attempts(remote, model, mime, count, a + 1, n, st1);
        assert r == Attempts(remote, model, mime, count, a, n, st);
        AttemptsUploads(remote, model, mime, count, a + 1, n, st1);
        ExtendsTrans(st.log, st1.log, r.log);
      }
    }
  }

  /** The key cursor the loop leaves is the start cursor moved once per
      rotation it logged. */
  lemma {:induction false} AttemptsKey(remote: Remote, model: string, mime: string, start: nat, count: nat, a: nat, n: nat, st: Loop)
    requires start < count && KeyTracks(start, count, st)
    requires st.done.None?
    ensures KeyTracks(start, count, Attempts(remote, model, mime, count, a, n, st))
    decreases n - a
  {
    if a < n {
      var st1 := Attempt(remote, model, mime, count, a, st);
      AttemptKey(remote, model, mime, start, count, a, st);
      if st1.done.None? {
        assert Attempts(remote, model, mime, count, a, n, st) == Attempts(remote, model, mime, count, a + 1, n, st1);
        AttemptsKey(remote, model, mime, start, count, a + 1, n, st1);
      }
    }
  }

  /** The fallback call is made at most once, and only for a "-lite" model. */
  lemma {:induction false} AttemptsFallbacks(remote: Remote, model: string, mime: string, count: nat, a: nat, n: nat, st: Loop)
    requires count > 0
    requires st.done.None? && (a < n ==> st.budget == n)
    ensures CountFallbacks(Attempts(remote, model, mime, count, a, n, st).log)
              <= CountFallbacks(st.log) + (if a < n && Contains(model, "-lite") then 1 else 0)
    decreases n - a
  {
    if a < n {
      var st1 := Attempt(remote, model, mime, count, a, st);
      AttemptLog(remote, model, mime, count, a, st);
      AttemptOutcome(remote, model, mime, count, a, st);
      if st1.done.None? {
        assert Attempts(remote, model, mime, count, a, n, st) == Attempts(remote, model, mime, count, a + 1, n, st1);
        AttemptsFallbacks(remote, model, mime, count, a + 1, n, st1);
      }
    }
  }

  /** The loop of `transcript_audio` with the attempt left abstract. */
  function Retry(step: (nat, Loop) -> Loop, a: nat, n: int, st: Loop): Loop
    decreases n - a
  {
    if st.done.Some? || a >= n then st else Retry(step, a + 1, n, step(a, st))
  }

  /** Attempt `i` of the loop, as a function value. */
  function AttemptStep(remote: Remote, model: string, mime: string, count: nat): (nat, Loop) -> Loop
    requires count > 0
  {
    (i: nat, s: Loop) => Attempt(remote, model, mime, count, i, s)
  }

  lemma {:induction false} AttemptsRetry(remote: Remote, model: string, mime: string, count: nat, a: nat, n: int, st: Loop)
    requires count > 0
    ensures Attempts(remote, model, mime, count, a, n, st) == Retry(AttemptStep(remote, model, mime, count), a, n, st)
    decreases n - a
  {
    if st.done.None? && a < n {
      var st1 := Attempt(remote, model, mime, count, a, st);
      assert AttemptStep(remote, model, mime, count)(a, st) == st1;
      AttemptsRetry(remote, model, mime, count, a + 1, n, st1);
    }
  }

  /** The loop ends with the budget raised at most once, with a failure
      `ok` accepts, or with an answer `good` accepts, when each attempt in
      range does. */
  lemma {:induction false} RetryEnds(step: (nat, Loop) -> Loop, ok: Exception -> bool, good: seq<Record> -> bool,
                                     a: nat, n: int, st: Loop)
    requires forall i: nat, s: Loop {:trigger step(i, s)} :: s.done.None? && i < n ==>
               var t := step(i, s);
               && (t.done.None? ==> t.budget == s.budget || (i == s.budget - 1 && t.budget == s.budget + 1))
               && (t.done.Some? && t.done.value.Failure? ==> ok(t.done.value.error))
               && (t.done.Some? && t.done.value.Success? ==> good(t.done.value.value))
    requires st.done.None? && (a < n ==> st.budget == n)
    ensures var r := Retry(step, a, n, st);
            && (r.done.None? && a < n ==> r.budget == n || r.budget == n + 1)
            && (r.done.Some? && r.done.value.Failure? ==> ok(r.done.value.error))
            && (r.done.Some? && r.done.value.Success? ==> good(r.done.value.value))
    decreases n - a
  {
    if a < n {
      var st1 := step(a, st);
      if st1.done.None? {
        RetryEnds(step, ok, good, a + 1, n, st1);
      }
    }
  }

  /** How the loop from attempt `a` on ends: exhausted with `max_retries`
      raised at most once, on an unclassified failure of the last attempt,
      or with an answer the service gave. */
  lemma AttemptsOutcome(remote: Remote, model: string, mime: string, count: nat, a: nat, n: int, st: Loop)
    requires count > 0
    requires st.done.None? && (a < n ==> st.budget == n)
    ensures var r := Attempts(remote, model, mime, count, a, n, st);
            && (r.done.None? && a < n ==> r.budget == n || r.budget == n + 1)
            && (r.done.Some? && r.done.value.Failure? ==> Classify(r.done.value.error.message) == OtherFailure)
            && (r.done.Some? && r.done.value.Success? ==> Answered(remote, n, r.done.value.value))
  {
    var step := AttemptStep(remote, model, mime, count);
    var ok := (e: Exception) => Classify(e.message) == OtherFailure;
    var good := (v: seq<Record>) => Answered(remote, n, v);
    forall i: nat, s: Loop | s.done.None? && i < n
      ensures var t := step(i, s);
              && (t.done.None? ==> t.budget == s.budget || (i == s.budget - 1 && t.budget == s.budget + 1))
              && (t.done.Some? && t.done.value.Failure? ==> ok(t.done.value.error))
              && (t.done.Some? && t.done.value.Success? ==> good(t.done.value.value))
    {
      AttemptOutcome(remote, model, mime, count, i, s);
      var t := Attempt(remote, model, mime, count, i, s);
      if t.done.Some? && t.done.value.Success? {
        AnsweredMonotone(remote, i + 1, n, t.done.value.value);
      }
    }
    AttemptsRetry(remote, model, mime, count, a, n, st);
    RetryEnds(step, ok, good, a, n, st);
  }

  lemma AnsweredMonotone(remote: Remote, m: int, n: int, v: seq<Record>)
    requires m <= n && Answered(remote, m, v)
    ensures Answered(remote, n, v)
  {
  }

  /** When the uploads of attempts `a` to `k - 1` hit a rate limit and
      attempt `k` uploads and gets an answer, the loop returns that answer
      after one rotation per rate-limited attempt. */
  lemma {:induction false} AttemptsRateLimitedThenAnswered(remote: Remote, model: string, mime: string, count: nat,
                                                           a: nat, k: nat, n: int, st: Loop, v: seq<Record>)
    requires count > 0 && st.done.None? && a <= k < n
    requires forall i :: a <= i < k ==> remote.upload(i).Raised? && Classify(remote.upload(i).error.message) == RateLimited
    requires remote.upload(k).Ok? && remote.generate(k).Ok?
    requires ParseResponse(remote.generate(k).value, remote.loads) == Success(v)
    ensures var r := Attempts(remote, model, mime, count, a, n, st);
            r.done == Some(Success(v)) && CountRotations(r.log) == CountRotations(st.log) + (k - a)
  {
    var step := AttemptStep(remote, model, mime, count);
    forall i: nat, s: Loop | a <= i < k && s.done.None?
      ensures step(i, s).done.None? && CountRotations(step(i, s).log) == CountRotations(s.log) + 1
    {
      RateLimitedAttempt(remote, model, mime, count, i, s);
    }
    forall s: Loop
      ensures step(k, s).done == Some(Success(v)) && CountRotations(step(k, s).log) == CountRotations(s.log)
    {
      AnsweredAttempt(remote, model, mime, count, k, s, v);
    }
    AttemptsRetry(remote, model, mime, count, a, n, st);
    RetryThenAnswered(step, a, k, n, st, v);
  }

  /** Attempts that each rotate once and go on, then one that answers. */
  lemma {:induction false} RetryThenAnswered(step: (nat, Loop) -> Loop, a: nat, k: nat, n: int, st: Loop, v: seq<Record>)
    requires st.done.None? && a <= k < n
    requires forall i: nat, s: Loop {:trigger step(i, s)} :: a <= i < k && s.done.None? ==>
               step(i, s).done.None? && CountRotations(step(i, s).log) == CountRotations(s.log) + 1
    requires forall s: Loop {:trigger step(k, s)} ::
               step(k, s).done == Some(Success(v)) && CountRotations(step(k, s).log) == CountRotations(s.log)
    ensures var r := Retry(step, a, n, st);
            r.done == Some(Success(v)) && CountRotations(r.log) == CountRotations(st.log) + (k - a)
    decreases k - a
  {
    if a < k {
      RetryThenAnswered(step, a + 1, k, n, step(a, st), v);
    }
  }

  /** An attempt whose upload hits a rate limit goes on to the next one
      after one rotation. */
  lemma RateLimitedAttempt(remote: Remote, model: string, mime: string, count: nat, a: nat, st: Loop)
    requires count > 0 && st.done.None?
    requires remote.upload(a).Raised? && Classify(remote.upload(a).error.message) == RateLimited
    ensures var r := Attempt(remote, model, mime, count, a, st);
            r.done.None? && CountRotations(r.log) == CountRotations(st.log) + 1
  {
    var st0 := Prepare(remote, a, st, mime);
    PrepareLog(remote, a, st, mime);
    RateLimitLog(count, st0);
  }

  /** An attempt whose upload succeeds and whose answer parses returns
      that answer, rotating nothing. */
  lemma AnsweredAttempt(remote: Remote, model: string, mime: string, count: nat, a: nat, st: Loop, v: seq<Record>)
    requires count > 0
    requires remote.upload(a).Ok? && remote.generate(a).Ok?
    requires ParseResponse(remote.generate(a).value, remote.loads) == Success(v)
    ensures var r := Attempt(remote, model, mime, count, a, st);
            r.done == Some(Success(v)) && CountRotations(r.log) == CountRotations(st.log)
  {
    var st0 := Prepare(remote, a, st, mime);
    PrepareLog(remote, a, st, mime);
    ReceivedLog(st0, remote.upload(a).value, model);
  }

  /** The whole call, when the first `k` uploads hit a rate limit and
      attempt `k` gets an answer: it returns that answer, with the key
      rotated `k` times. */
  lemma TranscribeRateLimitedThenAnswered(remote: Remote, model: string, mime: string, count: nat, start: nat,
                                          k: nat, n: int, v: seq<Record>)
    requires start < count && k < n
    requires forall i :: 0 <= i < k ==> remote.upload(i).Raised? && Classify(remote.upload(i).error.message) == RateLimited
    requires remote.upload(k).Ok? && remote.generate(k).Ok?
    requires ParseResponse(remote.generate(k).value, remote.loads) == Success(v)
    ensures var (r, log, key) := Transcribe(remote, model, mime, count, start, n);
            r == Success(v) && CountRotations(log) == k && key == Advance(start, k, count)
  {
    var st := Run(remote, model, mime, count, start, n);
    AttemptsRateLimitedThenAnswered(remote, model, mime, count, 0, k, n, Loop(None, start, n, [], None), v);
    RunLog(remote, model, mime, count, start, n);
    CleanupClears(remote, st.log, st.uploaded);
  }

  /** The exception the `try` block of attempt `a` raises, if any: from
      the upload, from the generate call, or from parsing its text. */
  function AttemptError(remote: Remote, a: nat): Option<Exception> {
    match remote.upload(a)
    case Raised(e) => Some(e)
    case Ok(_) =>
      match remote.generate(a)
      case Raised(e) => Some(e)
      case Ok(text) =>
        var parsed := ParseResponse(text, remote.loads);
        if parsed.Failure? then Some(parsed.error) else None
  }

  /** Attempt `a` raises an overload that the "-lite"-less call, when the
      model has one, does not answer. */
  predicate OverloadUnanswered(remote: Remote, model: string, a: nat) {
    var e := AttemptError(remote, a);
    && e.Some? && Classify(e.value.message) == Overloaded
    && !(Contains(model, "-lite") && remote.fallback.Ok? && ParseResponse(remote.fallback.value, remote.loads).Success?)
  }

  /** `max_retries` moves only on the last attempt, and only up by one,
      when that attempt is overloaded and not answered by the fallback. */
  lemma AttemptBudget(remote: Remote, model: string, mime: string, count: nat, a: nat, st: Loop)
    requires count > 0
    ensures var r := Attempt(remote, model, mime, count, a, st);
            r.budget == (if a == st.budget - 1 && OverloadUnanswered(remote, model, a) then st.budget + 1 else st.budget)
  {
    var st0 := Prepare(remote, a, st, mime);
    match remote.upload(a)
    case Raised(e) =>
    case Ok(h) =>
      match remote.generate(a)
      case Raised(e) =>
      case Ok(text) =>
  }

  /** Running attempts `a` to `m - 1` and then `m` to `n - 1` is running
      attempts `a` to `n - 1`. */
  lemma {:induction false} RetrySplit(step: (nat, Loop) -> Loop, a: nat, m: nat, n: int, st: Loop)
    requires a <= m <= n
    ensures Retry(step, a, n, st) == Retry(step, m, n, Retry(step, a, m, st))
    decreases m - a
  {
    if st.done.None? && a < m {
      RetrySplit(step, a + 1, m, n, step(a, st));
    }
  }

  /** While no attempt can be the last one, `max_retries` does not move. */
  lemma {:induction false} RetryBudgetKept(step: (nat, Loop) -> Loop, a: nat, m: nat, st: Loop)
    requires forall i: nat, s: Loop {:trigger step(i, s)} :: s.done.None? && i != s.budget - 1 ==>
               step(i, s).budget == s.budget
    requires m < st.budget
    ensures Retry(step, a, m, st).budget == st.budget
    decreases m - a
  {
    if st.done.None? && a < m {
      RetryBudgetKept(step, a + 1, m, step(a, st));
    }
  }

  /** No attempt but the last moves `max_retries`. */
  lemma StepBudget(remote: Remote, model: string, mime: string, count: nat)
    requires count > 0
    ensures var step := AttemptStep(remote, model, mime, count);
            forall i: nat, s: Loop {:trigger step(i, s)} :: s.done.None? && i != s.budget - 1 ==>
              step(i, s).budget == s.budget
  {
    forall i: nat, s: Loop | s.done.None? && i != s.budget - 1
      ensures Attempt(remote, model, mime, count, i, s).budget == s.budget
    {
      AttemptBudget(remote, model, mime, count, i, s);
    }
  }

  /** The error of an exhausted loop names `n + 1` exactly when the loop
      reached its last attempt and that attempt raised an overload the
      fallback did not answer; otherwise `max_retries` still reads `n`. */
  lemma RunBudget(remote: Remote, model: string, mime: string, count: nat, start: nat, n: nat)
    requires count > 0 && n > 0
    ensures var st := Run(remote, model, mime, count, start, n);
            var before := Attempts(remote, model, mime, count, 0, n - 1, Loop(None, start, n, [], None));
            && (st.budget == n + 1 <==> before.done.None? && OverloadUnanswered(remote, model, n - 1))
            && (st.budget == n || st.budget == n + 1)
  {
    var st0 := Loop(None, start, n, [], None);
    var before := Attempts(remote, model, mime, count, 0, n - 1, st0);
    var step := AttemptStep(remote, model, mime, count);
    AttemptsRetry(remote, model, mime, count, 0, n, st0);
    AttemptsRetry(remote, model, mime, count, 0, n - 1, st0);
    AttemptsRetry(remote, model, mime, count, n - 1, n, before);
    RetrySplit(step, 0, n - 1, n, st0);
    StepBudget(remote, model, mime, count);
    RetryBudgetKept(step, 0, n - 1, st0);
    if before.done.None? {
      AttemptBudget(remote, model, mime, count, n - 1, before);
      assert Attempts(remote, model, mime, count, n - 1, n, before)
             == Attempts(remote, model, mime, count, n, n, Attempt(remote, model, mime, count, n - 1, before));
    }
  }

  /* ---- the server-side files the client leaves behind ---- */

  lemma PendingRecover(remote: Remote, model: string, count: nat, a: nat, st: Loop, e: Exception)
    requires count > 0
    ensures var r := Recover(remote, model, count, a, st, e);
            Pending(r.log) == Pending(st.log) && Failed(r.log) == Failed(st.log) && r.uploaded == st.uploaded
  {
    match Classify(e.message)
    case RateLimited => RateLimitLog(count, st);
    case Overloaded => OverloadLog(remote, model, a, st);
    case OtherFailure => OtherLog(a, st, e);
  }

  lemma PendingRespond(remote: Remote, model: string, count: nat, a: nat, st: Loop)
    requires count > 0
    ensures var r := Respond(remote, model, count, a, st);
            Pending(r.log) == Pending(st.log) && Failed(r.log) == Failed(st.log) && r.uploaded == st.uploaded
  {
    match remote.generate(a)
    case Raised(e) => PendingRecover(remote, model, count, a, st, e);
    case Ok(text) =>
      match ParseResponse(text, remote.loads)
      case Success(v) =>
      case Failure(e) => PendingRecover(remote, model, count, a, st, e);
  }

  /** An attempt deletes the previous upload before it uploads again, so
      what the call left on the server is at most the handle
      `uploaded_file` names and files whose deletion raised; a failed
      deletion is the only way the second set grows. */
  lemma PendingAttempt(remote: Remote, model: string, mime: string, count: nat, a: nat, st: Loop)
    requires count > 0 && Pending(st.log) <= Live(st.uploaded) + Failed(st.log)
    ensures var r := Attempt(remote, model, mime, count, a, st);
            && Pending(r.log) <= Live(r.uploaded) + Failed(r.log)
            && Failed(st.log) <= Failed(r.log)
            && (remote.delete(BeforeAttempt(a)).Ok? ==> Failed(r.log) == Failed(st.log))
  {
    var st0 := Prepare(remote, a, st, mime);
    PrepareLog(remote, a, st, mime);
    match remote.upload(a)
    case Raised(e) => PendingRecover(remote, model, count, a, st0, e);
    case Ok(h) =>
      ReceivedLog(st0, h, model);
      PendingRespond(remote, model, count, a, Received(st0, h, model));
  }

  lemma {:induction false} PendingAttempts(remote: Remote, model: string, mime: string, count: nat, a: nat, n: int, st: Loop)
    requires count > 0 && Pending(st.log) <= Live(st.uploaded) + Failed(st.log)
    ensures var r := Attempts(remote, model, mime, count, a, n, st);
            && Pending(r.log) <= Live(r.uploaded) + Failed(r.log)
            && Failed(st.log) <= Failed(r.log)
            && ((forall i :: a <= i < n ==> remote.delete(BeforeAttempt(i)).Ok?) ==> Failed(r.log) == Failed(st.log))
    decreases n - a
  {
    if st.done.None? && a < n {
      var st1 := Attempt(remote, model, mime, count, a, st);
      PendingAttempt(remote, model, mime, count, a, st);
      assert Attempts(remote, model, mime, count, a, n, st) == Attempts(remote, model, mime, count, a + 1, n, st1);
      PendingAttempts(remote, model, mime, count, a + 1, n, st1);
    }
  }

  /** Cleanup events upload nothing, so they can only shrink what is left
      on the server; only a failed deletion adds to the failed names. */
  lemma {:induction false} PendingNoUploads(log: seq<Event>, extra: seq<Event>)
    requires forall i :: 0 <= i < |extra| ==> Cleaning(extra[i])
    ensures Pending(log + extra) <= Pending(log)
    ensures Failed(log) <= Failed(log + extra)
    ensures (forall i :: 0 <= i < |extra| ==> !extra[i].DeleteFailed?) ==> Failed(log + extra) == Failed(log)
    decreases |extra|
  {
    if extra != [] {
      var init := extra[..|extra| - 1];
      assert log + extra == (log + init) + [extra[|extra| - 1]];
      CountsPush(log + init, extra[|extra| - 1]);
      PendingNoUploads(log, init);
    } else {
      assert log + extra == log;
    }
  }

  /** Events of the cleanup are deletions and the listing: no upload, no
      rotation, no fallback call. */
  lemma {:induction false} CountsCleanup(log: seq<Event>, extra: seq<Event>)
    requires forall i :: 0 <= i < |extra| ==> Cleaning(extra[i])
    ensures CountUploads(log + extra) == CountUploads(log)
    ensures CountRotations(log + extra) == CountRotations(log)
    ensures CountFallbacks(log + extra) == CountFallbacks(log)
    decreases |extra|
  {
    if extra != [] {
      var init := extra[..|extra| - 1];
      assert log + extra == (log + init) + [extra[|extra| - 1]];
      CountsPush(log + init, extra[|extra| - 1]);
      CountsCleanup(log, init);
    } else {
      assert log + extra == log;
    }
  }

  /** After the `finally` clause, what the call uploaded and left on the
      server is among the files whose deletion raised: the last upload is
      deleted first, and the listing uploads nothing. */
  lemma CleanupClears(remote: Remote, log: seq<Event>, uploaded: Option<string>)
    requires Pending(log) <= Live(uploaded) + Failed(log)
    ensures Pending(log + Cleanup(remote, uploaded)) <= Failed(log + Cleanup(remote, uploaded))
    ensures CountUploads(log + Cleanup(remote, uploaded)) == CountUploads(log)
    ensures CountRotations(log + Cleanup(remote, uploaded)) == CountRotations(log)
    ensures CountFallbacks(log + Cleanup(remote, uploaded)) == CountFallbacks(log)
  {
    var first := if uploaded.Some? then [Deletion(remote.delete(AfterLoop), uploaded.value)] else [];
    var rest := [Listed] + Leftovers(remote, 0);
    assert Cleanup(remote, uploaded) == first + rest;
    DeleteLast(remote, log, uploaded);
    AppendAssociates(log, first, rest);
    PendingNoUploads(log + first, rest);
    CountsCleanup(log, first);
    CountsCleanup(log + first, rest);
  }

  /** When no deletion raises, the `finally` clause records no failed
      deletion (a pager that raises does not matter). */
  lemma CleanupNoFailure(remote: Remote, log: seq<Event>, uploaded: Option<string>)
    requires forall c :: remote.delete(c).Ok?
    ensures Failed(log + Cleanup(remote, uploaded)) == Failed(log)
  {
    var first := if uploaded.Some? then [Deletion(remote.delete(AfterLoop), uploaded.value)] else [];
    var rest := [Listed] + Leftovers(remote, 0);
    assert Cleanup(remote, uploaded) == first + rest;
    AppendAssociates(log, first, rest);
    LeftoversNoFailure(remote, 0);
    assert forall i :: 0 <= i < |first + rest| ==> !(first + rest)[i].DeleteFailed?;
    PendingNoUploads(log, first + rest);
  }

  lemma AppendAssociates(a: seq<Event>, b: seq<Event>, c: seq<Event>)
    ensures a + (b + c) == (a + b) + c
  {
  }

  /** Deleting the one live upload leaves pending only what failed to be
      deleted. */
  lemma DeleteLast(remote: Remote, log: seq<Event>, uploaded: Option<string>)
    requires Pending(log) <= Live(uploaded) + Failed(log)
    ensures var first := if uploaded.Some? then [Deletion(remote.delete(AfterLoop), uploaded.value)] else [];
            && Pending(log + first) <= Failed(log + first)
            && (remote.delete(AfterLoop).Ok? ==> Failed(log + first) == Failed(log))
  {
    if uploaded.Some? {
      CountsPush(log, Deletion(remote.delete(AfterLoop), uploaded.value));
    } else {
      assert log + [] == log;
    }
  }

  /* ---- the whole call ---- */

  /** The loop makes at most one upload per attempt in `range(n)`, and
      exactly one per attempt when no attempt returns or raises; the key
      cursor moved once per rotation; the fallback call is made at most
      once, and never for a model without "-lite"; and at most the last
      upload is still on the server. */
  lemma RunLog(remote: Remote, model: string, mime: string, count: nat, start: nat, n: int)
    requires start < count
    ensures var st := Run(remote, model, mime, count, start, n);
            && CountUploads(st.log) <= Attempted(n)
            && (st.done.None? ==> CountUploads(st.log) == Attempted(n))
            && st.key == Advance(start, CountRotations(st.log), count)
            && CountFallbacks(st.log) <= (if n > 0 && Contains(model, "-lite") then 1 else 0)
            && Pending(st.log) <= Live(st.uploaded) + Failed(st.log)
            && ((forall c :: remote.delete(c).Ok?) ==> Failed(st.log) == {})
  {
    var st0 := Loop(None, start, n, [], None);
    if n > 0 {
      AttemptsUploads(remote, model, mime, count, 0, n, st0);
      AttemptsFallbacks(remote, model, mime, count, 0, n, st0);
      AttemptsKey(remote, model, mime, start, count, 0, n, st0);
    }
    PendingAttempts(remote, model, mime, count, 0, n, st0);
  }

  /** How the loop ends: with no answer, `max_retries` reads `n`, or `n + 1`
      after an overload on the last attempt; a raised error is an
      unclassified one; a returned answer is one the service gave. */
  lemma RunOutcome(remote: Remote, model: string, mime: string, count: nat, start: nat, n: int)
    requires count > 0
    ensures var st := Run(remote, model, mime, count, start, n);
            && (st.done.None? ==> st.budget == n || (n > 0 && st.budget == n + 1))
            && (st.done.Some? && st.done.value.Failure? ==> Classify(st.done.value.error.message) == OtherFailure)
            && (st.done.Some? && st.done.value.Success? ==> Answered(remote, n, st.done.value.value))
  {
    if n > 0 {
      AttemptsOutcome(remote, model, mime, count, 0, n, Loop(None, start, n, [], None));
    }
  }

  /** The whole call: an exhausted loop raises the `RuntimeError` naming
      `max_retries`, after exactly one upload per attempt; the key cursor
      moved once per rotation in the log; and once `finally` has run, an
      upload of the call is left on the server only if its deletion
      raised, so none is left when no deletion raises. */
  lemma TranscribeFacts(remote: Remote, model: string, mime: string, count: nat, start: nat, n: int)
    requires start < count
    ensures var (r, log, key) := Transcribe(remote, model, mime, count, start, n);
            var st := Run(remote, model, mime, count, start, n);
            && (st.done.None? ==> r.Failure? && r.error == Exhausted(st.budget) && CountUploads(log) == Attempted(n))
            && CountUploads(log) <= Attempted(n)
            && key == Advance(start, CountRotations(log), count)
            && CountFallbacks(log) <= (if n > 0 && Contains(model, "-lite") then 1 else 0)
            && Pending(log) <= Failed(log)
            && ((forall c :: remote.delete(c).Ok?) ==> Pending(log) == {})
  {
    var st := Run(remote, model, mime, count, start, n);
    RunLog(remote, model, mime, count, start, n);
    CleanupClears(remote, st.log, st.uploaded);
    if forall c :: remote.delete(c).Ok? {
      CleanupNoFailure(remote, st.log, st.uploaded);
    }
  }

  /** With no attempt to make (`max_retries <= 0`) the call uploads nothing
      and raises the `RuntimeError` naming `max_retries`. */
  lemma TranscribeNoAttempt(remote: Remote, model: string, mime: string, count: nat, start: nat, n: int)
    requires start < count && n <= 0
    ensures var (r, log, key) := Transcribe(remote, model, mime, count, start, n);
            && r == Failure(Exhausted(n)) && CountUploads(log) == 0 && key == start
  {
    TranscribeFacts(remote, model, mime, count, start, n);
  }

  /** Every upload fails with a rate limit: each attempt rotates the key
      once, and none is added. */
  lemma {:induction false} AllRateLimited(remote: Remote, model: string, mime: string, count: nat, a: nat, n: nat, st: Loop, e: Exception)
    requires count > 0 && st.done.None? && a <= n
    requires Classify(e.message) == RateLimited
    requires forall i :: remote.upload(i) == Raised(e)
    ensures var r := Attempts(remote, model, mime, count, a, n, st);
            && r.done.None? && r.budget == st.budget
            && CountRotations(r.log) == CountRotations(st.log) + (n - a)
    decreases n - a
  {
    if a < n {
      var st0 := Prepare(remote, a, st, mime);
      PrepareLog(remote, a, st, mime);
      RateLimitLog(count, st0);
      var st1 := Attempt(remote, model, mime, count, a, st);
      assert st1 == RateLimitRetry(count, st0);
      AllRateLimited(remote, model, mime, count, a + 1, n, st1, e);
    }
  }

  /** Every upload fails with an overload of a model without "-lite": the
      call raises the error naming `n + 1` attempts, after making `n`. */
  lemma {:induction false} AllOverloaded(remote: Remote, model: string, mime: string, count: nat, a: nat, n: nat, st: Loop, e: Exception)
    requires count > 0 && st.done.None? && a <= n && (a < n ==> st.budget == n)
    requires Classify(e.message) == Overloaded && !Contains(model, "-lite")
    requires forall i :: remote.upload(i) == Raised(e)
    ensures var r := Attempts(remote, model, mime, count, a, n, st);
            && r.done.None? && r.budget == (if a < n then n + 1 else st.budget)
    decreases n - a
  {
    if a < n {
      var st1 := Attempt(remote, model, mime, count, a, st);
      assert st1 == OverloadRetry(remote, model, a, Prepare(remote, a, st, mime));
      AllOverloaded(remote, model, mime, count, a + 1, n, st1, e);
    }
  }

  /** The `max_retries += 1` of an overloaded last attempt adds no attempt:
      when every upload reports an overload of a model without "-lite",
      `n` uploads are made and the error names `n + 1`. */
  lemma TranscribeAllOverloaded(remote: Remote, model: string, mime: string, count: nat, start: nat, n: nat, e: Exception)
    requires start < count && n > 0
    requires Classify(e.message) == Overloaded && !Contains(model, "-lite")
    requires forall i :: remote.upload(i) == Raised(e)
    ensures var (r, log, key) := Transcribe(remote, model, mime, count, start, n);
            r == Failure(Exhausted(n + 1)) && CountUploads(log) == n
  {
    TranscribeFacts(remote, model, mime, count, start, n);
    AllOverloaded(remote, model, mime, count, 0, n, Loop(None, start, n, [], None), e);
  }

  /** When every upload is rate limited, the key is rotated once per attempt
      and the error names `n`. */
  lemma TranscribeAllRateLimited(remote: Remote, model: string, mime: string, count: nat, start: nat, n: nat, e: Exception)
    requires start < count
    requires Classify(e.message) == RateLimited
    requires forall i :: remote.upload(i) == Raised(e)
    ensures var (r, log, key) := Transcribe(remote, model, mime, count, start, n);
            r == Failure(Exhausted(n)) && CountRotations(log) == n && key == Advance(start, n, count)
  {
    TranscribeFacts(remote, model, mime, count, start, n);
    AllRateLimited(remote, model, mime, count, 0, n, Loop(None, start, n, [], None), e);
    var st := Run(remote, model, mime, count, start, n);
    RunLog(remote, model, mime, count, start, n);
    CleanupClears(remote, st.log, st.uploaded);
  }

  /* ---------------- transcript_audio ---------------- */

  /** The unsupported-type error raised inside the `try`. */
  const UnsupportedFile := Exception(ValueError, "Định dạng file không được hỗ trợ")

  /** What the client is given besides the service: `open(path).read()`,
      which may raise (a missing path gives FileNotFoundError),
      `magic.from_buffer`, which may raise as well (its MagicException is
      not caught locally), `mimetypes.guess_type` and the indices
      `random.choices` draws for `generate_random_string()`. */
  datatype Io = Io(
    readFile: string -> Reply<seq<byte>>,
    magic: seq<byte> -> Reply<string>,
    guess: string -> Option<string>,
    picks: nat -> nat)

  /** The bytes and the name the call works with. A path is read and named
      by its base name. A BytesIO is first replaced by a fresh copy of its
      bytes, and the copy has no `name`, so it is always named
      `audio_<random>.wav`. Anything else raises the unsupported-type
      ValueError, and a path that cannot be read raises what `open` or
      `read` raised; both happen inside the `try`. */
  function Source(file: AudioArg, io: Io): (r: Result<(seq<byte>, string), Exception>)
    ensures !IsPathOrBuffer(file) ==> r == Failure(UnsupportedFile)
    ensures file.PathArg? && io.readFile(file.path).Raised? ==> r == Failure(io.readFile(file.path).error)
    ensures file.PathArg? && io.readFile(file.path).Ok? ==> r == Success((io.readFile(file.path).value, BaseName(file.path)))
    ensures file.BufferArg? ==> r.Success? && r.value.0 == file.data && EndsWith(r.value.1, ".wav")
    ensures file.BufferArg? ==> && |r.value.1| == 30 && StartsWith(r.value.1, "audio_")
                                && forall j :: 6 <= j < 26 ==> r.value.1[j] in LettersAndDigits
  {
    match file
    case PathArg(path) =>
      (match io.readFile(path)
       case Raised(e) => Failure(e)
       case Ok(data) => Success((data, BaseName(path))))
    case BufferArg(data, _) => Success((data, "audio_" + RandomString(io.picks, 20) + ".wav"))
    case _ => Failure(UnsupportedFile)
  }

  /** The whole of `transcript_audio(file, max_retries, model)` with the key
      cursor at `start` of `count` keys: the outcome, every event, and the
      cursor it leaves. */
  function TranscriptAudioSpec(remote: Remote, io: Io, file: AudioArg, n: int, model: string, count: nat, start: nat)
    : (Result<seq<Record>, Exception>, seq<Event>, nat)
    requires count > 0
  {
    match Source(file, io)
    case Failure(e) => (Failure(e), Cleanup(remote, None), start)
    case Success((data, name)) =>
      match io.magic(data)
      case Raised(e) => (Failure(e), Cleanup(remote, None), start)
      case Ok(detected) => Transcribe(remote, model, NormalizedMimeType(detected, io.guess(name), name), count, start, n)
  }

  /** A path that cannot be read raises inside the `try`, before any
      upload: the call raises that error, uploads nothing, leaves the key
      where it was and leaves nothing of its own on the server, while
      `finally` still runs its listing loop. */
  lemma TranscriptUnreadable(remote: Remote, io: Io, path: string, n: int, model: string, count: nat, start: nat)
    requires start < count && io.readFile(path).Raised?
    ensures var (r, log, key) := TranscriptAudioSpec(remote, io, PathArg(path), n, model, count, start);
            && r == Failure(io.readFile(path).error)
            && CountUploads(log) == 0 && CountRotations(log) == 0 && key == start
            && Pending(log) == {}
            && Listed in log
  {
    var log := Cleanup(remote, None);
    CountsCleanup([], log);
    PendingNoUploads([], log);
    assert [] + log == log;
  }

  /** Type detection that raises does so inside the `try`, after the file
      was read and before any upload: the call raises that error, uploads
      nothing, leaves the key where it was and leaves nothing of its own
      on the server, while `finally` still runs its listing loop. */
  lemma TranscriptUntyped(remote: Remote, io: Io, file: AudioArg, n: int, model: string, count: nat, start: nat)
    requires start < count && Source(file, io).Success? && io.magic(Source(file, io).value.0).Raised?
    ensures var (r, log, key) := TranscriptAudioSpec(remote, io, file, n, model, count, start);
            && r == Failure(io.magic(Source(file, io).value.0).error)
            && CountUploads(log) == 0 && CountRotations(log) == 0 && key == start
            && Pending(log) == {}
            && Listed in log
  {
    var log := Cleanup(remote, None);
    CountsCleanup([], log);
    PendingNoUploads([], log);
    assert [] + log == log;
  }

  /** Module load: `API_KEYS` holds the two configured keys and the client
      starts on the first of them. */
  method LoadClient(key1: string, key2: string) returns (pool: CredentialPool)
    ensures fresh(pool) && pool.Valid()
    ensures pool.keys == [key1, key2] && pool.index == 0 && pool.CurrentKey() == key1
  {
    pool := new CredentialPool([key1, key2], 0);
  }

  /** The `except` block of attempt `a` for the exception `e`, with the
      loop variables before it. */
  method HandleFailure(pool: CredentialPool, remote: Remote, model: string, a: nat, e: Exception,
                       uploaded: Option<string>, budget: int, ghost log: seq<Event>)
    returns (budget': int, ghost log': seq<Event>, outcome: Option<Result<seq<Record>, Exception>>)
    requires pool.Valid()
    modifies pool
    ensures pool.Valid()
    ensures Loop(uploaded, pool.index, budget', log', outcome)
            == Recover(remote, model, |pool.keys|, a, Loop(uploaded, old(pool.index), budget, log, None), e)
  {
    var lastAttempt := a == budget - 1;
    budget', log', outcome := budget, log, None;
    match Classify(e.message) {
      case RateLimited =>
        pool.ChangeApiKey();
        log' := log' + [Rotated(pool.index), Slept(1)];
      case Overloaded =>
        log' := log' + [Slept(Min(30, Pow2(a) + 1))];
        if lastAttempt && Contains(model, "-lite") {
          log' := log' + [Fallback(ReplaceAll(model, "-lite", ""), uploaded)];
          if remote.fallback.Ok? {
            var results := ParseResponse(remote.fallback.value, remote.loads);
            if results.Success? {
              outcome := Some(results);
            }
          }
        }
        if lastAttempt && outcome.None? {
          log' := log' + [Slept(10)];
          budget' := budget' + 1;
        }
      case OtherFailure =>
        if !lastAttempt {
          log' := log' + [Slept(2 * (a + 1))];
        } else {
          outcome := Some(Failure(e));
        }
    }
  }

  /** Attempt `a` of the loop: its `try` block, then its `except` block if
      anything in it raised. */
  method TryAttempt(pool: CredentialPool, remote: Remote, model: string, mime: string, a: nat,
                    uploaded: Option<string>, budget: int, ghost log: seq<Event>)
    returns (uploaded': Option<string>, budget': int, ghost log': seq<Event>, outcome: Option<Result<seq<Record>, Exception>>)
    requires pool.Valid()
    modifies pool
    ensures pool.Valid()
    ensures Loop(uploaded', pool.index, budget', log', outcome)
            == Attempt(remote, model, mime, |pool.keys|, a, Loop(uploaded, old(pool.index), budget, log, None))
  {
    ghost var before := Loop(uploaded, pool.index, budget, log, None);
    uploaded', budget', log', outcome := uploaded, budget, log, None;
    if uploaded.Some? {
      var dropped := remote.delete(BeforeAttempt(a));
      log' := log' + [if dropped.Ok? then Deleted(uploaded.value) else DeleteFailed(uploaded.value)];
    }
    log' := log' + [Uploading(mime)];
    ghost var prepared := Loop(uploaded', pool.index, budget', log', None);
    assert prepared == Prepare(remote, a, before, mime);
    var failure: Option<Exception> := None;
    match remote.upload(a) {
      case Raised(e) =>
        failure := Some(e);
      case Ok(h) =>
        uploaded' := Some(h);
        log' := log' + [Uploaded(h), Called(model)];
        assert Loop(uploaded', pool.index, budget', log', None) == Received(prepared, h, model);
        match remote.generate(a) {
          case Raised(e) =>
            failure := Some(e);
          case Ok(text) =>
            var results := ParseResponse(text, remote.loads);
            if results.Success? {
              outcome := Some(results);
            } else {
              failure := Some(results.error);
            }
        }
    }
    ghost var reached := Loop(uploaded', pool.index, budget', log', None);
    assert failure.Some? ==>
      Attempt(remote, model, mime, |pool.keys|, a, before) == Recover(remote, model, |pool.keys|, a, reached, failure.value);
    if failure.Some? {
      budget', log', outcome := HandleFailure(pool, remote, model, a, failure.value, uploaded', budget', log');
    }
  }

  /** `for attempt in range(max_retries)`: the range is fixed when the loop
      starts, so raising `max_retries` inside it adds no attempt. */
  method RetryLoop(pool: CredentialPool, remote: Remote, model: string, mime: string, maxRetries: int)
    returns (uploaded: Option<string>, budget: int, ghost log: seq<Event>, outcome: Option<Result<seq<Record>, Exception>>)
    requires pool.Valid()
    modifies pool
    ensures pool.Valid()
    ensures Loop(uploaded, pool.index, budget, log, outcome) == Run(remote, model, mime, |pool.keys|, old(pool.index), maxRetries)
  {
    uploaded, budget, log, outcome := None, maxRetries, [], None;
    var attempt: nat := 0;
    while outcome.None? && attempt < maxRetries
      invariant pool.Valid()
      invariant Attempts(remote, model, mime, |pool.keys|, attempt, maxRetries, Loop(uploaded, pool.index, budget, log, outcome))
                == Run(remote, model, mime, |pool.keys|, old(pool.index), maxRetries)
      decreases maxRetries - attempt
    {
      uploaded, budget, log, outcome := TryAttempt(pool, remote, model, mime, attempt, uploaded, budget, log);
      attempt := attempt + 1;
    }
  }

  /** The `finally` block: delete the last upload in a `try` of its own,
      then list the files and delete each inside one `try`, which the
      first deletion that raises, or a pager that raises, ends. Every
      error is only printed. */
  ghost method FinallyCleanup(remote: Remote, uploaded: Option<string>, log: seq<Event>) returns (log': seq<Event>)
    ensures log' == log + Cleanup(remote, uploaded)
  {
    ghost var target := log + Cleanup(remote, uploaded);
    log' := log;
    if uploaded.Some? {
      var last := remote.delete(AfterLoop);
      log' := log' + [if last.Ok? then Deleted(uploaded.value) else DeleteFailed(uploaded.value)];
    }
    log' := log' + [Listed];
    assert log' + Leftovers(remote, 0) == target;
    var i := 0;
    var stopped := false;
    while i < |remote.listing| && !stopped
      invariant i <= |remote.listing|
      invariant !stopped ==> log' + Leftovers(remote, i) == target
      invariant stopped ==> log' == target
      decreases |remote.listing| - i, if stopped then 0 else 1
    {
      if remote.delete(ListedEntry(i)).Ok? {
        assert log' + Leftovers(remote, i) == (log' + [Deleted(remote.listing[i])]) + Leftovers(remote, i + 1);
        log' := log' + [Deleted(remote.listing[i])];
        i := i + 1;
      } else {
        log' := log' + [DeleteFailed(remote.listing[i])];
        stopped := true;
      }
    }
    if !stopped {
      if remote.listError.Some? {
        log' := log' + [ListFailed];
      } else {
        assert log' + Leftovers(remote, i) == log';
      }
    }
  }

  /** `transcript_audio`: read the file, normalise its MIME type, run the
      retry loop over the shared credential pool, and clean up. The events
      it causes are returned as a ghost log. */
  method TranscriptAudio(pool: CredentialPool, remote: Remote, io: Io, file: AudioArg, maxRetries: int, model: string)
    returns (r: Result<seq<Record>, Exception>, ghost log: seq<Event>)
    requires pool.Valid()
    modifies pool
    ensures pool.Valid()
    ensures (r, log, pool.index) == TranscriptAudioSpec(remote, io, file, maxRetries, model, |pool.keys|, old(pool.index))
  {
    var source := Source(file, io);
    if source.Failure? {
      r := Failure(source.error);
      log := FinallyCleanup(remote, None, []);
      assert log == Cleanup(remote, None);
    } else {
      var (data, filename) := source.value;
      var detected := io.magic(data);
      if detected.Raised? {
        r := Failure(detected.error);
        log := FinallyCleanup(remote, None, []);
        assert log == Cleanup(remote, None);
        return;
      }
      var mime := NormalizedMimeType(detected.value, io.guess(filename), filename);
      var uploaded, budget, outcome;
      uploaded, budget, log, outcome := RetryLoop(pool, remote, model, mime, maxRetries);
      r := if outcome.Some? then outcome.value else Failure(Exhausted(budget));
      log := FinallyCleanup(remote, uploaded, log);
      assert (r, log, pool.index) == Transcribe(remote, model, mime, |pool.keys|, old(pool.index), maxRetries);
    }
  }
}
