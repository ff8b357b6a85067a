/** The login limiter under concurrent attempts. The check and the record of a failure are separate
    steps, so several attempts can be between them. A history lists the steps of all attempts for
    one client key in the order they take the mutex. */
module Limiter {
  import opened Auth

  datatype LoginEvent =
    | Check(at: nat)      // asks to go on; refused, or in flight from now on
    | Failure(at: nat)    // an attempt in flight ends by recording a failure
    | Success(at: nat)    // an attempt in flight ends by clearing the failures
    | Abandoned(at: nat)  // an attempt in flight ends without either
    | Restarted(at: nat)  // the service starts again with no attempt in flight

  datatype LimiterState = LimiterState(attempts: Attempts, inFlight: int)

  function Next(s: LimiterState, key: string, e: LoginEvent): LimiterState {
    match e
    case Check(at) =>
      LimiterState(AfterCheck(s.attempts, key, at), s.inFlight + if Admits(s.attempts, key, at) then 1 else 0)
    case Failure(at) => LimiterState(AfterFailure(s.attempts, key, at), s.inFlight - 1)
    case Success(_) => LimiterState(Without(s.attempts, key), s.inFlight - 1)
    case Abandoned(_) => LimiterState(s.attempts, s.inFlight - 1)
    case Restarted(_) => LimiterState(map[], s.inFlight)
  }

  function RunFrom(s: LimiterState, key: string, es: seq<LoginEvent>): LimiterState {
    if es == [] then s else Next(RunFrom(s, key, es[..|es| - 1]), key, es[|es| - 1])
  }

  const START := LimiterState(map[], 0)

  function Run(key: string, es: seq<LoginEvent>): LimiterState {
    RunFrom(START, key, es)
  }

  function LastTime(es: seq<LoginEvent>): nat {
    if es == [] then 0 else es[|es| - 1].at
  }

  /** Only attempts in flight end, and the service restarts only when there are none. */
  predicate EndsAttempt(e: LoginEvent, inFlight: int) {
    if e.Check? then true else if e.Restarted? then inFlight == 0 else inFlight > 0
  }

  /** A history the service can produce with at most k attempts in flight: the clock is monotone
      and only attempts in flight end. */
  predicate ValidHistory(key: string, es: seq<LoginEvent>, k: nat) {
    es == [] ||
    var before := es[..|es| - 1];
    var e := es[|es| - 1];
    && ValidHistory(key, before, k)
    && LastTime(before) <= e.at
    && EndsAttempt(e, Run(key, before).inFlight)
    && Run(key, es).inFlight <= k
  }

  function FailuresNow(attempts: Attempts, key: string): nat {
    if key in attempts then attempts[key].failures else 0
  }

  /** The failures recorded in one fixed window, for the proof: its start and their times. */
  datatype Window = Window(start: nat, times: seq<nat>)

  function OpenAt(windows: seq<Window>, attempts: Attempts, key: string, now: nat): seq<Window> {
    if key in attempts && now - attempts[key].windowStarted < RATE_LIMIT_WINDOW then windows
    else windows + [Window(now, [])]
  }

  function AddFailure(windows: seq<Window>, now: nat): seq<Window>
    requires windows != []
  {
    var last := windows[|windows| - 1];
    windows[..|windows| - 1] + [Window(last.start, last.times + [now])]
  }

  function NextWindows(windows: seq<Window>, attempts: Attempts, key: string, e: LoginEvent): seq<Window> {
    var current := OpenAt(windows, attempts, key, e.at);
    match e
    case Check(_) => current
    case Failure(at) => if current == [] then [] else AddFailure(current, at)
    case Success(_) => []
    case Abandoned(_) => windows
    case Restarted(_) => []
  }

  /** The windows since the last success. */
  function Windows(key: string, es: seq<LoginEvent>): seq<Window> {
    if es == [] then []
    else
      var before := es[..|es| - 1];
      NextWindows(Windows(key, before), Run(key, before).attempts, key, es[|es| - 1])
  }

  /** The windows are disjoint, at least one window length apart, and hold at most b failures each. */
  ghost predicate Spaced(windows: seq<Window>, b: int) {
    && (forall i :: 0 <= i < |windows| ==> |windows[i].times| <= b)
    && (forall i, j :: 0 <= i < |windows| && 0 <= j < |windows[i].times| ==>
          windows[i].start <= windows[i].times[j] < windows[i].start + RATE_LIMIT_WINDOW)
    && (forall i :: 0 < i < |windows| ==> windows[i - 1].start + RATE_LIMIT_WINDOW <= windows[i].start)
  }

  /** The last window is the stored one: same start, same count. */
  ghost predicate Tracks(windows: seq<Window>, attempts: Attempts, key: string) {
    && (key in attempts <==> windows != [])
    && (windows != [] ==>
          var last := windows[|windows| - 1];
          && last.start == attempts[key].windowStarted
          && attempts[key].failures == (if |last.times| <= U32_MAX then |last.times| else U32_MAX))
  }

  function LastCount(windows: seq<Window>): nat {
    if windows == [] then 0 else |windows[|windows| - 1].times|
  }

  function LastStart(windows: seq<Window>): nat {
    if windows == [] then 0 else windows[|windows| - 1].start
  }

  ghost predicate WindowInv(windows: seq<Window>, s: LimiterState, key: string, last: nat, k: nat) {
    && 0 <= s.inFlight <= k
    && Spaced(windows, 4 + k)
    && Tracks(windows, s.attempts, key)
    && LastStart(windows) <= last
    && LastCount(windows) + s.inFlight <= 4 + k
  }

  lemma OpenTracks(windows: seq<Window>, attempts: Attempts, key: string, now: nat)
    requires Tracks(windows, attempts, key)
    ensures Tracks(OpenAt(windows, attempts, key, now), AfterCheck(attempts, key, now), key)
    ensures LastCount(OpenAt(windows, attempts, key, now)) <= LastCount(windows)
    ensures Admits(attempts, key, now) ==> LastCount(OpenAt(windows, attempts, key, now)) <= 4
  {
  }

  lemma AddTracks(windows: seq<Window>, attempts: Attempts, key: string, now: nat)
    requires Tracks(windows, attempts, key)
    ensures Tracks(AddFailure(OpenAt(windows, attempts, key, now), now), AfterFailure(attempts, key, now), key)
  {
  }

  lemma CheckStep(windows: seq<Window>, s: LimiterState, key: string, last: nat, now: nat, k: nat)
    requires WindowInv(windows, s, key, last, k)
    requires last <= now && Next(s, key, Check(now)).inFlight <= k
    ensures WindowInv(OpenAt(windows, s.attempts, key, now), Next(s, key, Check(now)), key, now, k)
  {
    OpenKeepsSpacing(windows, s.attempts, key, now, k);
    OpenTracks(windows, s.attempts, key, now);
    assert LastStart(OpenAt(windows, s.attempts, key, now)) <= now;
  }

  lemma FailureStep(windows: seq<Window>, s: LimiterState, key: string, last: nat, now: nat, k: nat)
    requires WindowInv(windows, s, key, last, k)
    requires last <= now && s.inFlight > 0
    ensures WindowInv(AddFailure(OpenAt(windows, s.attempts, key, now), now), Next(s, key, Failure(now)), key, now, k)
  {
    var current := OpenAt(windows, s.attempts, key, now);
    OpenKeepsSpacing(windows, s.attempts, key, now, k);
    OpenTracks(windows, s.attempts, key, now);
    AddTracks(windows, s.attempts, key, now);
    AddKeepsSpacing(current, now, k);
    assert LastCount(AddFailure(current, now)) == LastCount(current) + 1;
    assert LastStart(AddFailure(current, now)) == LastStart(current) <= now;
  }

  lemma WindowInvStep(windows: seq<Window>, s: LimiterState, key: string, last: nat, e: LoginEvent, k: nat)
    requires WindowInv(windows, s, key, last, k)
    requires last <= e.at && EndsAttempt(e, s.inFlight) && Next(s, key, e).inFlight <= k
    ensures WindowInv(NextWindows(windows, s.attempts, key, e), Next(s, key, e), key, e.at, k)
  {
    match e
    case Check(now) => CheckStep(windows, s, key, last, now, k);
    case Failure(now) => FailureStep(windows, s, key, last, now, k);
    case Success(_) =>
    case Abandoned(_) =>
    case Restarted(_) =>
  }

  lemma {:induction false} WindowInvHolds(key: string, es: seq<LoginEvent>, k: nat)
    requires ValidHistory(key, es, k)
    ensures WindowInv(Windows(key, es), Run(key, es), key, LastTime(es), k)
  {
    if es != [] {
      var before := es[..|es| - 1];
      WindowInvHolds(key, before, k);
      WindowInvStep(Windows(key, before), Run(key, before), key, LastTime(before), es[|es| - 1], k);
    }
  }

  lemma OpenKeepsSpacing(windows: seq<Window>, attempts: Attempts, key: string, now: nat, k: nat)
    requires Spaced(windows, 4 + k) && Tracks(windows, attempts, key) && LastStart(windows) <= now
    ensures Spaced(OpenAt(windows, attempts, key, now), 4 + k)
  {
    var current := OpenAt(windows, attempts, key, now);
    if current != windows {
      assert current == windows + [Window(now, [])];
      forall i | 0 <= i < |current|
        ensures |current[i].times| <= 4 + k
        ensures forall j :: 0 <= j < |current[i].times| ==>
                              current[i].start <= current[i].times[j] < current[i].start + RATE_LIMIT_WINDOW
      {
        assert i < |windows| ==> current[i] == windows[i];
      }
      forall i | 0 < i < |current|
        ensures current[i - 1].start + RATE_LIMIT_WINDOW <= current[i].start
      {
        assert current[i - 1] == windows[i - 1];
        assert i < |windows| ==> current[i] == windows[i];
      }
    }
  }

  lemma AddKeepsSpacing(windows: seq<Window>, now: nat, k: nat)
    requires windows != [] && Spaced(windows, 4 + k)
    requires windows[|windows| - 1].start <= now < windows[|windows| - 1].start + RATE_LIMIT_WINDOW
    requires |windows[|windows| - 1].times| < 4 + k
    ensures Spaced(AddFailure(windows, now), 4 + k)
  {
  }

  /** With at most k attempts in flight the window counter never exceeds 4 + k; counting the
      attempts in flight as failures to come does not exceed it either. One at a time, that is 5. */
  lemma {:induction false} CounterBound(key: string, es: seq<LoginEvent>, k: nat)
    requires ValidHistory(key, es, k)
    ensures key in Run(key, es).attempts ==> Run(key, es).attempts[key].failures + Run(key, es).inFlight <= 4 + k
    ensures FailuresNow(Run(key, es).attempts, key) <= 4 + k
  {
    WindowInvHolds(key, es, k);
  }

  predicate InSpan(at: nat, t: nat) {
    t <= at < t + RATE_LIMIT_WINDOW
  }

  /** The failures recorded from position i on, within one window length from t. */
  function FailuresInSpan(es: seq<LoginEvent>, i: nat, t: nat): nat
    requires i <= |es|
  {
    if |es| == i then 0
    else FailuresInSpan(es[..|es| - 1], i, t) + if es[|es| - 1].Failure? && InSpan(es[|es| - 1].at, t) then 1 else 0
  }

  predicate NoSuccessFrom(es: seq<LoginEvent>, i: nat) {
    forall j :: i <= j < |es| ==> !es[j].Success? && !es[j].Restarted?
  }

  function TimesInSpan(times: seq<nat>, t: nat): nat {
    if times == [] then 0
    else TimesInSpan(times[..|times| - 1], t) + if InSpan(times[|times| - 1], t) then 1 else 0
  }

  function WindowsInSpan(windows: seq<Window>, t: nat): nat {
    if windows == [] then 0
    else WindowsInSpan(windows[..|windows| - 1], t) + TimesInSpan(windows[|windows| - 1].times, t)
  }

  lemma {:induction false} TimesInSpanBound(times: seq<nat>, t: nat)
    ensures TimesInSpan(times, t) <= |times|
    ensures (forall j :: 0 <= j < |times| ==> !InSpan(times[j], t)) ==> TimesInSpan(times, t) == 0
  {
    if times != [] {
      TimesInSpanBound(times[..|times| - 1], t);
    }
  }

  /** Windows that all end by t add nothing. */
  lemma {:induction false} EarlierWindows(windows: seq<Window>, b: int, t: nat)
    requires Spaced(windows, b)
    requires windows != [] ==> windows[|windows| - 1].start + RATE_LIMIT_WINDOW <= t
    ensures WindowsInSpan(windows, t) == 0
  {
    if windows != [] {
      EarlierWindows(windows[..|windows| - 1], b, t);
      TimesInSpanBound(windows[|windows| - 1].times, t);
    }
  }

  /** Windows that all start before t: only the last can reach into the span. */
  lemma OneWindow(windows: seq<Window>, b: nat, t: nat)
    requires Spaced(windows, b)
    requires windows != [] ==> windows[|windows| - 1].start < t
    ensures WindowsInSpan(windows, t) <= b
  {
    if windows != [] {
      var init := windows[..|windows| - 1];
      TimesInSpanBound(windows[|windows| - 1].times, t);
      EarlierWindows(init, b, t);
    }
  }

  /** A span of one window length meets at most two windows. */
  lemma {:induction false} TwoWindows(windows: seq<Window>, b: nat, t: nat)
    requires Spaced(windows, b)
    ensures WindowsInSpan(windows, t) <= 2 * b
  {
    if windows != [] {
      var init := windows[..|windows| - 1];
      var last := windows[|windows| - 1];
      assert Spaced(init, b);
      TimesInSpanBound(last.times, t);
      if last.start >= t + RATE_LIMIT_WINDOW {
        TwoWindows(init, b, t);
      } else {
        OneWindow(init, b, t);
      }
    }
  }

  lemma OpenKeepsSpan(windows: seq<Window>, attempts: Attempts, key: string, now: nat, t: nat)
    ensures WindowsInSpan(OpenAt(windows, attempts, key, now), t) == WindowsInSpan(windows, t)
  {
    var current := OpenAt(windows, attempts, key, now);
    if current != windows {
      assert current[..|current| - 1] == windows;
      assert current[|current| - 1].times == [];
    }
  }

  lemma AddAddsToSpan(windows: seq<Window>, now: nat, t: nat)
    requires windows != []
    ensures WindowsInSpan(AddFailure(windows, now), t) == WindowsInSpan(windows, t) + if InSpan(now, t) then 1 else 0
  {
    var last := windows[|windows| - 1];
    var added := AddFailure(windows, now);
    assert added[..|added| - 1] == windows[..|windows| - 1];
    assert (last.times + [now])[..|last.times|] == last.times;
  }

  lemma SpanStep(windows: seq<Window>, attempts: Attempts, key: string, e: LoginEvent, t: nat)
    requires Tracks(windows, attempts, key) && !e.Success? && !e.Restarted?
    ensures WindowsInSpan(NextWindows(windows, attempts, key, e), t) ==
              WindowsInSpan(windows, t) + if e.Failure? && InSpan(e.at, t) then 1 else 0
  {
    OpenKeepsSpan(windows, attempts, key, e.at, t);
    if e.Failure? {
      AddAddsToSpan(OpenAt(windows, attempts, key, e.at), e.at, t);
    }
  }

  lemma {:induction false} FailuresAreInWindows(key: string, es: seq<LoginEvent>, k: nat, i: nat, t: nat)
    requires ValidHistory(key, es, k) && i <= |es| && NoSuccessFrom(es, i)
    ensures FailuresInSpan(es, i, t) <= WindowsInSpan(Windows(key, es), t)
  {
    if i < |es| {
      var before := es[..|es| - 1];
      var e := es[|es| - 1];
      assert NoSuccessFrom(before, i) by {
        assert forall j :: i <= j < |before| ==> before[j] == es[j];
      }
      assert !e.Success? && !e.Restarted?;
      FailuresAreInWindows(key, before, k, i, t);
      WindowInvHolds(key, before, k);
      SpanStep(Windows(key, before), Run(key, before).attempts, key, e, t);
    }
  }

  /** Any span of fifteen minutes without a successful login holds at most 2 * (4 + k) recorded
      failures: a fixed window can be met at its end and the next one at its start. */
  lemma SpanBound(key: string, es: seq<LoginEvent>, k: nat, i: nat, t: nat)
    requires ValidHistory(key, es, k) && i <= |es| && NoSuccessFrom(es, i)
    ensures FailuresInSpan(es, i, t) <= 2 * (4 + k)
  {
    WindowInvHolds(key, es, k);
    FailuresAreInWindows(key, es, k, i, t);
    TwoWindows(Windows(key, es), 4 + k, t);
  }

  predicate LockedOut(attempts: Attempts, key: string) {
    key in attempts && attempts[key].failures >= MAX_LOGIN_FAILURES
  }

  /** Exactly when an attempt is refused: the stored window is full and has not run out. */
  lemma RefusedExactly(attempts: Attempts, key: string, now: nat)
    ensures !Admits(attempts, key, now) <==>
              LockedOut(attempts, key) && now < attempts[key].windowStarted + RATE_LIMIT_WINDOW
  {
  }

  predicate AllChecks(es: seq<LoginEvent>) {
    forall j :: 0 <= j < |es| ==> es[j].Check?
  }

  predicate AllBefore(es: seq<LoginEvent>, deadline: nat) {
    forall j :: 0 <= j < |es| ==> es[j].at < deadline
  }

  /** Knocking while locked out changes nothing, however often, and the first knock at or after
      fifteen minutes from the start of the window is admitted with a fresh counter. */
  lemma {:induction false} LockoutRelease(s: LimiterState, key: string, es: seq<LoginEvent>, now: nat)
    requires LockedOut(s.attempts, key)
    requires AllChecks(es) && AllBefore(es, s.attempts[key].windowStarted + RATE_LIMIT_WINDOW)
    requires s.attempts[key].windowStarted + RATE_LIMIT_WINDOW <= now
    ensures RunFrom(s, key, es) == s
    ensures Admits(RunFrom(s, key, es).attempts, key, now)
    ensures FailuresNow(AfterCheck(RunFrom(s, key, es).attempts, key, now), key) == 0
  {
    if es != [] {
      LockoutRelease(s, key, es[..|es| - 1], now);
      assert Next(s, key, es[|es| - 1]).attempts == s.attempts;
    }
  }
}
