/** `autoextract_poet/retry.py`: which AutoExtract query errors are retried,
    how long to wait and when to give up. The regular expression match, the
    `float` conversion, the random back-off and the clock are inputs. */
module AutoextractRetry {
  import opened Wrappers
  import opened Scrapy

  // ---- message normalisation ----------------------------------------

  /** `str.lower` on one character (ASCII letters only). */
  function LowerChar(c: char): (d: char)
    ensures 'A' <= c <= 'Z' ==> d as int == c as int + 32
    ensures !('A' <= c <= 'Z') ==> d == c
    ensures !('A' <= d <= 'Z')
  {
    if 'A' <= c <= 'Z' then (c as int + 32) as char else c
  }

  function Lower(s: string): (r: string)
    ensures |r| == |s|
  {
    if s == [] then [] else [LowerChar(s[0])] + Lower(s[1..])
  }

  /** The characters `str.strip` removes: those for which `str.isspace`
      holds. In ASCII these are tab, line feed, vertical tab, form feed,
      carriage return, the four separators 0x1C-0x1F and space; beyond it,
      the Unicode whitespace characters. */
  predicate IsSpace(c: char) {
    var n := c as int;
    || 9 <= n <= 13 || 28 <= n <= 32
    || n == 0x85 || n == 0xA0 || n == 0x1680 || 0x2000 <= n <= 0x200A
    || n == 0x2028 || n == 0x2029 || n == 0x202F || n == 0x205F || n == 0x3000
  }

  function LStrip(s: string): (r: string)
    ensures |r| <= |s|
    ensures r != [] ==> !IsSpace(r[0])
  {
    if s != [] && IsSpace(s[0]) then LStrip(s[1..]) else s
  }

  function RStrip(s: string): (r: string)
    ensures |r| <= |s|
    ensures r != [] ==> !IsSpace(r[|r| - 1])
  {
    if s != [] && IsSpace(s[|s| - 1]) then RStrip(s[..|s| - 1]) else s
  }

  function Strip(s: string): string {
    RStrip(LStrip(s))
  }

  /** `msg.lower().strip()`. */
  function Normalize(s: string): string {
    Strip(Lower(s))
  }

  predicate AllSpace(s: string) {
    forall i | 0 <= i < |s| :: IsSpace(s[i])
  }

  predicate NoUpper(s: string) {
    forall i | 0 <= i < |s| :: !('A' <= s[i] <= 'Z')
  }

  lemma {:induction false} LowerAppend(a: string, b: string)
    ensures Lower(a + b) == Lower(a) + Lower(b)
  {
    if a == [] {
      assert a + b == b;
    } else {
      assert (a + b)[0] == a[0] && (a + b)[1..] == a[1..] + b;
      LowerAppend(a[1..], b);
    }
  }

  lemma {:induction false} LowerNoUpper(s: string)
    ensures NoUpper(Lower(s))
    ensures forall i | 0 <= i < |s| :: Lower(s)[i] == LowerChar(s[i])
  {
    if s != [] {
      LowerNoUpper(s[1..]);
    }
  }

  lemma {:induction false} LowerKeepsNoUpper(s: string)
    requires NoUpper(s)
    ensures Lower(s) == s
  {
    if s != [] {
      LowerKeepsNoUpper(s[1..]);
    }
  }

  /** Lower-casing keeps whitespace where it is. */
  lemma LowerKeepsSpace(s: string)
    requires AllSpace(s)
    ensures Lower(s) == s
  {
    LowerKeepsNoUpper(s);
  }

  lemma {:induction false} LStripSpacePrefix(ws: string, s: string)
    requires AllSpace(ws)
    ensures LStrip(ws + s) == LStrip(s)
  {
    if ws == [] {
      assert ws + s == s;
    } else {
      assert (ws + s)[0] == ws[0] && (ws + s)[1..] == ws[1..] + s;
      LStripSpacePrefix(ws[1..], s);
    }
  }

  lemma {:induction false} RStripSpaceSuffix(s: string, ws: string)
    requires AllSpace(ws)
    ensures RStrip(s + ws) == RStrip(s)
  {
    if ws == [] {
      assert s + ws == s;
    } else {
      assert (s + ws)[|s + ws| - 1] == ws[|ws| - 1];
      assert (s + ws)[..|s + ws| - 1] == s + ws[..|ws| - 1];
      RStripSpaceSuffix(s, ws[..|ws| - 1]);
    }
  }

  /** Left-stripping `s + ws` either keeps the tail, or eats everything
      when `s` is blank. */
  lemma {:induction false} LStripAppend(s: string, ws: string)
    requires AllSpace(ws)
    ensures LStrip(s) != [] ==> LStrip(s + ws) == LStrip(s) + ws
    ensures LStrip(s) == [] ==> LStrip(s + ws) == []
  {
    if s == [] {
      assert s + ws == ws;
      LStripSpacePrefix(ws, []);
      assert ws + [] == ws;
    } else if IsSpace(s[0]) {
      assert (s + ws)[1..] == s[1..] + ws;
      LStripAppend(s[1..], ws);
    }
  }

  lemma {:induction false} LStripIdempotent(s: string)
    ensures LStrip(LStrip(s)) == LStrip(s)
  {
    if s != [] && IsSpace(s[0]) {
      LStripIdempotent(s[1..]);
    }
  }

  lemma {:induction false} RStripIdempotent(s: string)
    ensures RStrip(RStrip(s)) == RStrip(s)
  {
    if s != [] && IsSpace(s[|s| - 1]) {
      RStripIdempotent(s[..|s| - 1]);
    }
  }

  /** Right-stripping never exposes a leading space. */
  lemma {:induction false} RStripKeepsHead(s: string)
    requires s == [] || !IsSpace(s[0])
    ensures LStrip(RStrip(s)) == RStrip(s)
  {
    if s != [] && IsSpace(s[|s| - 1]) {
      RStripKeepsHead(s[..|s| - 1]);
    }
  }

  /** Stripping is a suffix-free, prefix-free slice: stripping again is a
      no-op. */
  lemma StripIdempotent(s: string)
    ensures Strip(Strip(s)) == Strip(s)
  {
    var l := LStrip(s);
    RStripKeepsHead(l);
    RStripIdempotent(l);
  }

  lemma {:induction false} LStripNoUpper(s: string)
    requires NoUpper(s)
    ensures NoUpper(LStrip(s))
  {
    if s != [] && IsSpace(s[0]) {
      LStripNoUpper(s[1..]);
    }
  }

  lemma {:induction false} RStripNoUpper(s: string)
    requires NoUpper(s)
    ensures NoUpper(RStrip(s))
  {
    if s != [] && IsSpace(s[|s| - 1]) {
      RStripNoUpper(s[..|s| - 1]);
    }
  }

  /** A normalised message normalises to itself. */
  lemma NormalizeIdempotent(s: string)
    ensures Normalize(Normalize(s)) == Normalize(s)
  {
    var low := Lower(s);
    LowerNoUpper(s);
    LStripNoUpper(low);
    RStripNoUpper(LStrip(low));
    LowerKeepsNoUpper(Strip(low));
    StripIdempotent(low);
  }

  /** Surrounding whitespace does not change the stripped form. */
  lemma StripIgnoresSurroundingSpace(pre: string, x: string, post: string)
    requires AllSpace(pre) && AllSpace(post)
    ensures Strip(pre + x + post) == Strip(x)
  {
    assert pre + x + post == pre + (x + post);
    LStripSpacePrefix(pre, x + post);
    LStripAppend(x, post);
    if LStrip(x) != [] {
      RStripSpaceSuffix(LStrip(x), post);
    }
  }

  /** Surrounding whitespace does not change the normal form. */
  lemma NormalizeIgnoresSurroundingSpace(pre: string, m: string, post: string)
    requires AllSpace(pre) && AllSpace(post)
    ensures Normalize(pre + m + post) == Normalize(m)
  {
    LowerAppend(pre + m, post);
    LowerAppend(pre, m);
    LowerKeepsSpace(pre);
    LowerKeepsSpace(post);
    assert Lower(pre + m + post) == pre + Lower(m) + post;
    StripIgnoresSurroundingSpace(pre, Lower(m), post);
  }

  /** Lower-casing first does not change the normal form. */
  lemma NormalizeIgnoresCase(m: string)
    ensures Normalize(Lower(m)) == Normalize(m)
  {
    LowerNoUpper(m);
    LowerKeepsNoUpper(Lower(m));
  }

  // ---- retriable messages --------------------------------------------

  /** `_RETRIABLE_ERR_MSGS`: the listed messages in their lower-cased,
      stripped form, the last two for the API's development server. */
  const RetriableErrMsgs: set<string> := {
    "query timed out",
    "downloader error: no response (network5)",
    "downloader error: http50",
    "downloader error: globaltimeouterror",
    "proxy error: banned",
    "proxy error: internal_error",
    "proxy error: nxdomain",
    "proxy error: timeout",
    "proxy error: ssl_tunnel_error",
    "proxy error: msgtimeout",
    "proxy error: econnrefused",
    "error making splash request: serverdisconnectederror",
    "error making splash request: clientoserror: [errno 32] broken pipe"
  }

  /** `_is_retriable_error_msg(msg)`. */
  function IsRetriableErrorMsg(msg: Option<string>): (r: bool)
    ensures r <==> Normalize(msg.GetOr("")) in RetriableErrMsgs
  {
    Normalize(msg.GetOr("")) in RetriableErrMsgs
  }

  /** `None` and the empty message are not retriable. */
  lemma NoMessageNotRetriable()
    ensures !IsRetriableErrorMsg(None) && !IsRetriableErrorMsg(Some(""))
  {
    assert Normalize("") == "";
  }

  lemma LowerTimedOutHead()
    ensures Lower("query timed ") == "query timed "
  {
    assert NoUpper("query timed ");
    LowerKeepsNoUpper("query timed ");
  }

  lemma LowerTimedOutSplit()
    ensures Lower("query timed Out") == Lower("query timed ") + Lower("Out")
  {
    assert "query timed " + "Out" == "query timed Out";
    LowerAppend("query timed ", "Out");
  }

  lemma LowerOut()
    ensures Lower("Out") == "out"
  {
  }

  lemma LowerTimedOut()
    ensures Lower("query timed Out") == "query timed out"
  {
    calc {
      Lower("query timed Out");
      == { LowerTimedOutSplit(); }
      Lower("query timed ") + Lower("Out");
      == { LowerTimedOutHead(); LowerOut(); }
      "query timed " + "out";
      ==
      "query timed out";
    }
  }

  lemma StripTimedOut()
    ensures Strip("query timed out") == "query timed out"
  {
    assert LStrip("query timed out") == "query timed out";
    assert RStrip("query timed out") == "query timed out";
  }

  lemma PaddedTimedOut()
    ensures " query timed Out " == " " + "query timed Out" + " "
  {
  }

  lemma NormalizeTimedOut()
    ensures Normalize(" query timed Out ") == "query timed out"
  {
    calc {
      Normalize(" query timed Out ");
      == { PaddedTimedOut(); }
      Normalize(" " + "query timed Out" + " ");
      == { assert AllSpace(" "); NormalizeIgnoresSurroundingSpace(" ", "query timed Out", " "); }
      Normalize("query timed Out");
      == { LowerTimedOut(); }
      Strip("query timed out");
      == { StripTimedOut(); }
      "query timed out";
    }
  }

  lemma TimedOutListed()
    ensures Normalize(" query timed Out ") in RetriableErrMsgs
  {
    NormalizeTimedOut();
    assert "query timed out" in RetriableErrMsgs;
  }

  lemma EyNotListed()
    ensures Normalize("ey") !in RetriableErrMsgs
  {
    var ey := "ey";
    LowerKeepsNoUpper(ey);
    assert LStrip(ey) == ey && RStrip(ey) == ey;
    assert forall r | r in RetriableErrMsgs :: |r| > |ey|;
  }

  lemma TimedOutRetriable()
    ensures IsRetriableErrorMsg(Some(" query timed Out "))
  {
    TimedOutListed();
  }

  lemma EyNotRetriable()
    ensures !IsRetriableErrorMsg(Some("ey"))
  {
    EyNotListed();
  }

  /** The examples of the `_is_retriable_error_msg` docstring: a listed
      message in other case and padded with spaces is retriable; an
      unlisted message and `None` are not. */
  lemma DocstringExamples()
    ensures IsRetriableErrorMsg(Some(" query timed Out "))
    ensures !IsRetriableErrorMsg(Some("ey"))
    ensures !IsRetriableErrorMsg(None)
  {
    TimedOutRetriable();
    EyNotRetriable();
    NoMessageNotRetriable();
  }

  /** Matching ignores case and surrounding whitespace. */
  lemma RetriableIgnoresCaseAndSpace(pre: string, m: string, post: string)
    requires AllSpace(pre) && AllSpace(post)
    ensures IsRetriableErrorMsg(Some(pre + m + post)) == IsRetriableErrorMsg(Some(m))
    ensures IsRetriableErrorMsg(Some(Lower(m))) == IsRetriableErrorMsg(Some(m))
  {
    NormalizeIgnoresSurroundingSpace(pre, m, post);
    NormalizeIgnoresCase(m);
  }

  /** A message is retriable exactly when its normal form is. */
  lemma RetriableByNormalForm(m: string)
    ensures IsRetriableErrorMsg(Some(Normalize(m))) == IsRetriableErrorMsg(Some(m))
  {
    NormalizeIdempotent(m);
  }

  // ---- "domain is occupied" ------------------------------------------

  /** Python's `60 * 5`: the wait for a malformed "occupied" message. */
  const MalformedOccupiedWait: real := 300.0

  /** `_domain_occupied(msg)`. `matchGroup` is `_DOMAIN_OCCUPIED_RE.match`
      followed by `group(1)`; `parseFloat` is `float`, `None` where it
      raises `ValueError`. */
  function DomainOccupied(msg: Option<string>, matchGroup: string -> Option<string>, parseFloat: string -> Option<real>)
    : (r: Option<real>)
    ensures r.None? <==> matchGroup(msg.GetOr("")).None?
    ensures matchGroup(msg.GetOr("")).Some? ==>
      var parsed := parseFloat(matchGroup(msg.GetOr("")).value);
      && (parsed.Some? ==> r == parsed)
      && (parsed.None? ==> r == Some(MalformedOccupiedWait))
  {
    match matchGroup(msg.GetOr(""))
    case None => None
    case Some(g) =>
      match parseFloat(g)
      case Some(x) => Some(x)
      case None => Some(MalformedOccupiedWait)
  }

  /** `_is_domain_occupied_error(exc)`: only query-level errors qualify. */
  function IsDomainOccupiedError(e: Exc, matchGroup: string -> Option<string>, parseFloat: string -> Option<real>)
    : (r: Option<real>)
    ensures !e.QueryLevelError? ==> r.None?
    ensures e.QueryLevelError? ==> r == DomainOccupied(e.errorMsg, matchGroup, parseFloat)
  {
    if e.QueryLevelError? then DomainOccupied(e.errorMsg, matchGroup, parseFloat) else None
  }

  /** `_is_retriable_error(exc)`: only query-level errors qualify. */
  function IsRetriableError(e: Exc): (r: bool)
    ensures r <==> e.QueryLevelError? && IsRetriableErrorMsg(e.errorMsg)
  {
    e.QueryLevelError? && IsRetriableErrorMsg(e.errorMsg)
  }

  /** Python truthiness of the optional wait: `None` and `0.0` are false. */
  predicate TruthyWait(w: Option<real>) {
    w.Some? && w.value != 0.0
  }

  /** `autoextract_retry_condition`: either predicate's result is truthy. */
  predicate ShouldRetry(e: Exc, matchGroup: string -> Option<string>, parseFloat: string -> Option<real>) {
    TruthyWait(IsDomainOccupiedError(e, matchGroup, parseFloat)) || IsRetriableError(e)
  }

  /** Only query-level errors are ever retried. */
  lemma OnlyQueryErrorsRetried(e: Exc, matchGroup: string -> Option<string>, parseFloat: string -> Option<real>)
    requires ShouldRetry(e, matchGroup, parseFloat)
    ensures e.QueryLevelError?
  {
  }

  const InvalidStateMsg: string := "Invalid retry state exception: "

  // ---- wait strategy ---------------------------------------------------

  /** What `autoextract_wait_strategy.__call__` hands to tenacity as
      written: a `wait_fixed` strategy object, or a number of seconds. */
  datatype WaitValue = FixedWaitObject(seconds: real) | WaitSeconds(s: real)

  /** `autoextract_wait_strategy.__call__` as written. `retriableWait` is
      the random back-off's answer; `str` is `str(exc)`. */
  function WaitAsWritten(
    e: Exc, matchGroup: string -> Option<string>, parseFloat: string -> Option<real>, retriableWait: real, str: Exc -> string)
    : (r: Result<WaitValue, Exc>)
    ensures TruthyWait(IsDomainOccupiedError(e, matchGroup, parseFloat)) ==>
      r == Ok(FixedWaitObject(IsDomainOccupiedError(e, matchGroup, parseFloat).value))
    ensures !TruthyWait(IsDomainOccupiedError(e, matchGroup, parseFloat)) && IsRetriableError(e) ==>
      r == Ok(WaitSeconds(retriableWait))
    ensures r.Err? <==> !ShouldRetry(e, matchGroup, parseFloat)
    ensures r.Err? ==> r.error == RuntimeError(InvalidStateMsg + str(e))
  {
    var wait := IsDomainOccupiedError(e, matchGroup, parseFloat);
    if TruthyWait(wait) then Ok(FixedWaitObject(wait.value))
    else if IsRetriableError(e) then Ok(WaitSeconds(retriableWait))
    else Err(RuntimeError(InvalidStateMsg + str(e)))
  }

  /** tenacity sleeps for the number the wait strategy returns; a strategy
      object is not a number. */
  predicate IsSleepable(v: WaitValue) {
    v.WaitSeconds?
  }

  /** As written, every "domain occupied" error hands tenacity something it
      cannot sleep for. */
  lemma WaitAsWrittenNotANumber(
    e: Exc, matchGroup: string -> Option<string>, parseFloat: string -> Option<real>, retriableWait: real, str: Exc -> string)
    requires TruthyWait(IsDomainOccupiedError(e, matchGroup, parseFloat))
    ensures WaitAsWritten(e, matchGroup, parseFloat, retriableWait, str).Ok?
    ensures !IsSleepable(WaitAsWritten(e, matchGroup, parseFloat, retriableWait, str).value)
  {
  }

  /** The evident intent: wait the suggested seconds, or back off at
      random. */
  function Wait(
    e: Exc, matchGroup: string -> Option<string>, parseFloat: string -> Option<real>, retriableWait: real, str: Exc -> string)
    : (r: Result<real, Exc>)
    ensures r.Ok? <==> ShouldRetry(e, matchGroup, parseFloat)
    ensures TruthyWait(IsDomainOccupiedError(e, matchGroup, parseFloat)) ==>
      r == Ok(IsDomainOccupiedError(e, matchGroup, parseFloat).value)
    ensures !TruthyWait(IsDomainOccupiedError(e, matchGroup, parseFloat)) && IsRetriableError(e) ==> r == Ok(retriableWait)
    ensures r.Err? ==> r.error == RuntimeError(InvalidStateMsg + str(e))
  {
    var wait := IsDomainOccupiedError(e, matchGroup, parseFloat);
    if TruthyWait(wait) then Ok(wait.value)
    else if IsRetriableError(e) then Ok(retriableWait)
    else Err(RuntimeError(InvalidStateMsg + str(e)))
  }

  /** The corrected wait differs from the one written only in returning the
      seconds themselves. */
  lemma WaitCorrectsAsWritten(
    e: Exc, matchGroup: string -> Option<string>, parseFloat: string -> Option<real>, retriableWait: real, str: Exc -> string)
    ensures var written := WaitAsWritten(e, matchGroup, parseFloat, retriableWait, str);
      var fixed := Wait(e, matchGroup, parseFloat, retriableWait, str);
      && (written.Err? <==> fixed.Err?)
      && (written.Err? ==> written.error == fixed.error)
      && (written.Ok? ==> fixed.value == (if written.value.FixedWaitObject? then written.value.seconds else written.value.s))
  {
  }

  // ---- stop strategy ---------------------------------------------------

  /** `stop_after_delay(15 * 60)`. */
  const StopDelay: real := 900.0

  /** What `autoextract_stop_strategy.__call__` hands to tenacity as
      written: the `stop_never` object, or a decision. */
  datatype StopValue = StopNeverObject | Decided(stop: bool)

  /** tenacity stops when the stop strategy's answer is truthy; the
      `stop_never` object, not being called, is truthy. */
  predicate Stops(v: StopValue) {
    match v
    case StopNeverObject => true
    case Decided(b) => b
  }

  /** `autoextract_stop_strategy.__call__` as written; `elapsed` is the
      retry state's seconds since the first attempt. */
  function StopAsWritten(
    e: Exc, matchGroup: string -> Option<string>, parseFloat: string -> Option<real>, elapsed: real, str: Exc -> string)
    : (r: Result<StopValue, Exc>)
    ensures TruthyWait(IsDomainOccupiedError(e, matchGroup, parseFloat)) ==> r == Ok(StopNeverObject)
    ensures !TruthyWait(IsDomainOccupiedError(e, matchGroup, parseFloat)) && IsRetriableError(e) ==>
      r == Ok(Decided(elapsed >= StopDelay))
    ensures r.Err? <==> !ShouldRetry(e, matchGroup, parseFloat)
    ensures r.Err? ==> r.error == RuntimeError(InvalidStateMsg + str(e))
  {
    if TruthyWait(IsDomainOccupiedError(e, matchGroup, parseFloat)) then Ok(StopNeverObject)
    else if IsRetriableError(e) then Ok(Decided(elapsed >= StopDelay))
    else Err(RuntimeError(InvalidStateMsg + str(e)))
  }

  /** As written, a "domain occupied" error stops retrying at once, however
      little time has passed. */
  lemma StopAsWrittenStopsAtOnce(
    e: Exc, matchGroup: string -> Option<string>, parseFloat: string -> Option<real>, str: Exc -> string)
    requires TruthyWait(IsDomainOccupiedError(e, matchGroup, parseFloat))
    ensures StopAsWritten(e, matchGroup, parseFloat, 0.0, str).Ok?
    ensures Stops(StopAsWritten(e, matchGroup, parseFloat, 0.0, str).value)
  {
  }

  /** The evident intent: never stop on "domain occupied", stop other
      retriable errors after 15 minutes. */
  function Stop(
    e: Exc, matchGroup: string -> Option<string>, parseFloat: string -> Option<real>, elapsed: real, str: Exc -> string)
    : (r: Result<bool, Exc>)
    ensures r.Ok? <==> ShouldRetry(e, matchGroup, parseFloat)
    ensures TruthyWait(IsDomainOccupiedError(e, matchGroup, parseFloat)) ==> r == Ok(false)
    ensures !TruthyWait(IsDomainOccupiedError(e, matchGroup, parseFloat)) && IsRetriableError(e) ==>
      r == Ok(elapsed >= StopDelay)
    ensures r.Err? ==> r.error == RuntimeError(InvalidStateMsg + str(e))
  {
    if TruthyWait(IsDomainOccupiedError(e, matchGroup, parseFloat)) then Ok(false)
    else if IsRetriableError(e) then Ok(elapsed >= StopDelay)
    else Err(RuntimeError(InvalidStateMsg + str(e)))
  }

  /** With the correction, a retried error is only ever stopped by the
      15-minute limit, and never while a domain is occupied. */
  lemma StopOnlyAfterDelay(
    e: Exc, matchGroup: string -> Option<string>, parseFloat: string -> Option<real>, elapsed: real, str: Exc -> string)
    requires Stop(e, matchGroup, parseFloat, elapsed, str) == Ok(true)
    ensures elapsed >= StopDelay
    ensures !TruthyWait(IsDomainOccupiedError(e, matchGroup, parseFloat)) && IsRetriableError(e)
  {
  }

  /** An error reporting an occupied domain is retried after the number of
      seconds the message gives, or after five minutes when that number is
      malformed, and retrying never stops on it. A report of zero seconds
      is not a reason to retry, so the message decides as for any other. */
  lemma OccupiedDomainWaitsAsReported(
    msg: string, matchGroup: string -> Option<string>, parseFloat: string -> Option<real>,
    retriableWait: real, elapsed: real, str: Exc -> string)
    requires matchGroup(msg).Some?
    ensures var e := QueryLevelError(Some(msg));
      var parsed := parseFloat(matchGroup(msg).value);
      var reported := if parsed.Some? then parsed.value else MalformedOccupiedWait;
      && (reported != 0.0 ==>
            && ShouldRetry(e, matchGroup, parseFloat)
            && Wait(e, matchGroup, parseFloat, retriableWait, str) == Ok(reported)
            && Stop(e, matchGroup, parseFloat, elapsed, str) == Ok(false))
      && (reported == 0.0 ==>
            (ShouldRetry(e, matchGroup, parseFloat) <==> IsRetriableErrorMsg(Some(msg))))
  {
  }

  /** A listed message that reports no occupied domain is retried after the
      random back-off until 15 minutes have passed. */
  lemma RetriableMessageBacksOff(
    msg: string, matchGroup: string -> Option<string>, parseFloat: string -> Option<real>,
    retriableWait: real, elapsed: real, str: Exc -> string)
    requires IsRetriableErrorMsg(Some(msg)) && !TruthyWait(DomainOccupied(Some(msg), matchGroup, parseFloat))
    ensures var e := QueryLevelError(Some(msg));
      && ShouldRetry(e, matchGroup, parseFloat)
      && Wait(e, matchGroup, parseFloat, retriableWait, str) == Ok(retriableWait)
      && Stop(e, matchGroup, parseFloat, elapsed, str) == Ok(elapsed >= StopDelay)
  {
  }
}
