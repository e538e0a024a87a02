/** The retry policy of `process_video` (scraper.py, lines 47-59). The
    download capability is abstracted as the outcome it gives for each
    attempt number. The outcome is that of the whole `try` block of lines
    50-53 (the two console lines and the download): `Error` stands for an
    exception of a subclass of `Exception` raised anywhere in that block,
    which the `except` clause catches. Exceptions outside `Exception`
    (`KeyboardInterrupt`, `SystemExit`, a cancellation during the sleep of
    line 56) end the call and are not modelled. */
module Retry {

  datatype Outcome = Success | Error

  /** What one call of `process_video` does, in order: each attempt, each
      3-second cooldown after a failed attempt, and the final verdict. */
  datatype VideoEvent = Attempt(n: int) | Cooldown(seconds: int) | Saved | Skipped

  /** The fixed pause after a failed attempt (line 56). */
  const CooldownSeconds := 3

  /** The events of attempts 1 .. m when all of them fail. */
  function FailedRounds(m: nat): (t: seq<VideoEvent>)
    ensures |t| == 2 * m
  {
    if m == 0 then [] else FailedRounds(m - 1) + [Attempt(m), Cooldown(CooldownSeconds)]
  }

  /** The failed rounds are attempt 1, its cooldown, attempt 2, its
      cooldown, and so on. */
  lemma {:induction false} FailedRoundsLayout(m: nat)
    ensures forall j :: 0 <= j < m ==>
      FailedRounds(m)[2 * j] == Attempt(j + 1) && FailedRounds(m)[2 * j + 1] == Cooldown(CooldownSeconds)
  {
    if m > 0 {
      FailedRoundsLayout(m - 1);
      var p := FailedRounds(m - 1);
      assert FailedRounds(m) == p + [Attempt(m), Cooldown(CooldownSeconds)];
      forall j | 0 <= j < m
        ensures FailedRounds(m)[2 * j] == Attempt(j + 1)
        ensures FailedRounds(m)[2 * j + 1] == Cooldown(CooldownSeconds)
      {
        if j < m - 1 {
          assert FailedRounds(m)[2 * j] == p[2 * j];
          assert FailedRounds(m)[2 * j + 1] == p[2 * j + 1];
        }
      }
    }
  }

  /** Number of attempts recorded in a trace. */
  function Attempts(t: seq<VideoEvent>): nat {
    if t == [] then 0 else Attempts(t[..|t| - 1]) + (if t[|t| - 1].Attempt? then 1 else 0)
  }

  /** Number of cooldowns recorded in a trace. */
  function Cooldowns(t: seq<VideoEvent>): nat {
    if t == [] then 0 else Cooldowns(t[..|t| - 1]) + (if t[|t| - 1].Cooldown? then 1 else 0)
  }

  lemma CountsOfLast(t: seq<VideoEvent>, e: VideoEvent)
    ensures Attempts(t + [e]) == Attempts(t) + (if e.Attempt? then 1 else 0)
    ensures Cooldowns(t + [e]) == Cooldowns(t) + (if e.Cooldown? then 1 else 0)
  {
    assert (t + [e])[..|t|] == t;
  }

  /** Appending an attempt and what follows it. */
  lemma CountsOfRound(t: seq<VideoEvent>, n: int, e: VideoEvent)
    requires !e.Attempt?
    ensures Attempts(t + [Attempt(n), e]) == Attempts(t) + 1
    ensures Cooldowns(t + [Attempt(n), e]) == Cooldowns(t) + (if e.Cooldown? then 1 else 0)
  {
    var q := t + [Attempt(n)];
    assert t + [Attempt(n), e] == q + [e];
    CountsOfLast(t, Attempt(n));
    CountsOfLast(q, e);
  }

  lemma {:induction false} FailedRoundsCounts(m: nat)
    ensures Attempts(FailedRounds(m)) == m
    ensures Cooldowns(FailedRounds(m)) == m
  {
    if m > 0 {
      FailedRoundsCounts(m - 1);
      CountsOfRound(FailedRounds(m - 1), m, Cooldown(CooldownSeconds));
    }
  }

  lemma SavedCounts(n: nat)
    requires 1 <= n
    ensures Attempts(FailedRounds(n - 1) + [Attempt(n), Saved]) == n
    ensures Cooldowns(FailedRounds(n - 1) + [Attempt(n), Saved]) == n - 1
  {
    var p := FailedRounds(n - 1);
    FailedRoundsCounts(n - 1);
    assert Attempts(p) == n - 1 && Cooldowns(p) == n - 1;
    CountsOfRound(p, n, Saved);
  }

  lemma SkippedCounts(n: nat)
    ensures Attempts(FailedRounds(n) + [Skipped]) == n
    ensures Cooldowns(FailedRounds(n) + [Skipped]) == n
  {
    FailedRoundsCounts(n);
    CountsOfLast(FailedRounds(n), Skipped);
  }

  /** The trace of `process_video` from attempt `attempt` on, as a
      recursive definition; `maxRetry` is `MAX_RETRY`. */
  function RetryFrom(download: nat -> Outcome, attempt: nat, maxRetry: int): seq<VideoEvent>
    decreases maxRetry - attempt
  {
    if attempt > maxRetry then [Skipped]
    else if download(attempt) == Success then [Attempt(attempt), Saved]
    else [Attempt(attempt), Cooldown(CooldownSeconds)] + RetryFrom(download, attempt + 1, maxRetry)
  }

  function VideoTrace(download: nat -> Outcome, maxRetry: int): seq<VideoEvent> {
    RetryFrom(download, 1, maxRetry)
  }

  /** The verdict `process_video` returns, read off its trace. */
  predicate VideoSaved(t: seq<VideoEvent>) {
    t != [] && t[|t| - 1] == Saved
  }

  /** Some attempt among the first `maxRetry` succeeds. */
  ghost predicate SomeAttemptSucceeds(download: nat -> Outcome, maxRetry: int) {
    exists k :: 1 <= k <= maxRetry && download(k) == Success
  }

  /** A saved trace: attempts 1 .. n were made, n is the first successful
      one, each earlier failure was followed by one cooldown, and nothing
      follows the success. */
  ghost predicate SavedShape(download: nat -> Outcome, maxRetry: int, t: seq<VideoEvent>) {
    var n := Attempts(t);
    && 1 <= n <= maxRetry
    && download(n) == Success
    && (forall k :: 1 <= k < n ==> download(k) == Error)
    && t == FailedRounds(n - 1) + [Attempt(n), Saved]
    && Cooldowns(t) == n - 1
  }

  /** A skipped trace: all `maxRetry` attempts were made and failed, each
      followed by one cooldown, and the call ended with a skip. */
  ghost predicate SkippedShape(download: nat -> Outcome, maxRetry: int, t: seq<VideoEvent>) {
    var n := if maxRetry < 0 then 0 else maxRetry;
    && (forall k :: 1 <= k <= maxRetry ==> download(k) == Error)
    && t == FailedRounds(n) + [Skipped]
    && Attempts(t) == n
    && Cooldowns(t) == n
  }

  /** The trace says what a call of `process_video` should do. */
  ghost predicate WellShaped(download: nat -> Outcome, maxRetry: int, t: seq<VideoEvent>) {
    && (VideoSaved(t) <==> SomeAttemptSucceeds(download, maxRetry))
    && (VideoSaved(t) ==> SavedShape(download, maxRetry, t))
    && (!VideoSaved(t) ==> SkippedShape(download, maxRetry, t))
  }

  lemma SkippedEnd(download: nat -> Outcome, attempt: nat, maxRetry: int)
    requires 1 <= attempt
    requires attempt == (if maxRetry < 0 then 0 else maxRetry) + 1
    requires forall k :: 1 <= k < attempt ==> download(k) == Error
    ensures WellShaped(download, maxRetry, FailedRounds(attempt - 1) + [Skipped])
  {
    SkippedCounts(attempt - 1);
  }

  lemma SavedEnd(download: nat -> Outcome, attempt: nat, maxRetry: int)
    requires 1 <= attempt <= maxRetry
    requires download(attempt) == Success
    requires forall k :: 1 <= k < attempt ==> download(k) == Error
    ensures WellShaped(download, maxRetry, FailedRounds(attempt - 1) + [Attempt(attempt), Saved])
  {
    SavedCounts(attempt);
  }

  lemma {:induction false} RetryFromShape(download: nat -> Outcome, attempt: nat, maxRetry: int)
    requires 1 <= attempt
    requires attempt <= (if maxRetry < 0 then 0 else maxRetry) + 1
    requires forall k :: 1 <= k < attempt ==> download(k) == Error
    ensures WellShaped(download, maxRetry, FailedRounds(attempt - 1) + RetryFrom(download, attempt, maxRetry))
    decreases maxRetry - attempt
  {
    var p := FailedRounds(attempt - 1);
    if attempt > maxRetry {
      assert RetryFrom(download, attempt, maxRetry) == [Skipped];
      SkippedEnd(download, attempt, maxRetry);
    } else if download(attempt) == Success {
      assert RetryFrom(download, attempt, maxRetry) == [Attempt(attempt), Saved];
      SavedEnd(download, attempt, maxRetry);
    } else {
      var rest := RetryFrom(download, attempt + 1, maxRetry);
      assert RetryFrom(download, attempt, maxRetry) == [Attempt(attempt), Cooldown(CooldownSeconds)] + rest;
      assert p + RetryFrom(download, attempt, maxRetry) == FailedRounds(attempt) + rest;
      RetryFromShape(download, attempt + 1, maxRetry);
    }
  }

  /** The whole call, from attempt 1. */
  lemma VideoTraceShape(download: nat -> Outcome, maxRetry: int)
    ensures WellShaped(download, maxRetry, VideoTrace(download, maxRetry))
  {
    RetryFromShape(download, 1, maxRetry);
    assert FailedRounds(0) + VideoTrace(download, maxRetry) == VideoTrace(download, maxRetry);
  }

  /** `process_video(video_url, save_dir)`: returns whether the video was
      saved, and the events it produced. It saves exactly when one of the
      first `maxRetry` attempts succeeds; on success the attempts made are
      1 .. n with n the first successful one and nothing follows; otherwise
      all `maxRetry` attempts are made. Every failure is followed by one
      3-second cooldown, the success by none, and the call always ends with
      a verdict rather than an error. */
  method ProcessVideo(download: nat -> Outcome, maxRetry: int) returns (saved: bool, trace: seq<VideoEvent>)
    ensures saved <==> SomeAttemptSucceeds(download, maxRetry)
    ensures saved ==> SavedShape(download, maxRetry, trace)
    ensures !saved ==> SkippedShape(download, maxRetry, trace)
    ensures |trace| > 0 && trace[|trace| - 1] == (if saved then Saved else Skipped)
    ensures trace == VideoTrace(download, maxRetry)
    ensures saved == VideoSaved(trace)
  {
    trace := [];
    saved := false;
    var attempt: nat := 1;
    while attempt <= maxRetry && !saved
      invariant 1 <= attempt
      invariant saved ==> trace == VideoTrace(download, maxRetry) && VideoSaved(trace)
      invariant !saved ==> trace + RetryFrom(download, attempt, maxRetry) == VideoTrace(download, maxRetry)
      decreases maxRetry - attempt, !saved
    {
      ghost var rest := RetryFrom(download, attempt + 1, maxRetry);
      if download(attempt) == Success {
        assert RetryFrom(download, attempt, maxRetry) == [Attempt(attempt), Saved];
        trace := trace + [Attempt(attempt), Saved];
        saved := true;
      } else {
        assert RetryFrom(download, attempt, maxRetry) == [Attempt(attempt), Cooldown(CooldownSeconds)] + rest;
        trace := trace + [Attempt(attempt), Cooldown(CooldownSeconds)];
        attempt := attempt + 1;
      }
    }
    if !saved {
      assert RetryFrom(download, attempt, maxRetry) == [Skipped];
      trace := trace + [Skipped];
    }
    VideoTraceShape(download, maxRetry);
  }

  /** The scenario of a downloader that fails twice and then succeeds:
      saved after three attempts and two cooldowns. */
  lemma FailTwiceThenSucceed()
    ensures VideoTrace(k => if k < 3 then Error else Success, 3) ==
      [Attempt(1), Cooldown(3), Attempt(2), Cooldown(3), Attempt(3), Saved]
  {
  }
}
