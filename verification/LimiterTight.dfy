/** The limiter bounds are exact: concurrent attempts do reach them. */
module LimiterTight {
  import opened Auth
  import opened Limiter

  lemma Append(key: string, es: seq<LoginEvent>, e: LoginEvent, k: nat)
    requires ValidHistory(key, es, k) && LastTime(es) <= e.at
    requires EndsAttempt(e, Run(key, es).inFlight) && Next(Run(key, es), key, e).inFlight <= k
    ensures ValidHistory(key, es + [e], k) && LastTime(es + [e]) == e.at
    ensures Run(key, es + [e]) == Next(Run(key, es), key, e)
    ensures forall i: nat, t: nat :: i <= |es| ==>
              FailuresInSpan(es + [e], i, t) == FailuresInSpan(es, i, t) + if e.Failure? && InSpan(e.at, t) then 1
                  else 0
  {
    assert (es + [e])[..|es + [e]| - 1] == es;
  }

  /** A history after which the window for this moment started at w and holds n failures. */
  ghost predicate Standing(key: string, es: seq<LoginEvent>, k: nat, at: nat, w: nat, n: nat, inFlight: int) {
    && ValidHistory(key, es, k) && LastTime(es) <= at
    && WindowAt(Run(key, es).attempts, key, at) == LoginAttempt(w, n)
    && Run(key, es).inFlight == inFlight
    && NoSuccessFrom(es, 0)
  }

  /** The failures recorded in the window length from t on, within the whole history. */
  function Recorded(es: seq<LoginEvent>, t: nat): nat {
    FailuresInSpan(es, 0, t)
  }

  lemma CheckLetIn(key: string, es: seq<LoginEvent>, k: nat, at: nat, w: nat, n: nat, f: int, t: nat)
    requires Standing(key, es, k, at, w, n, f) && 0 <= f < k && n < MAX_LOGIN_FAILURES
    ensures Standing(key, es + [Check(at)], k, at, w, n, f + 1)
    ensures Recorded(es + [Check(at)], t) == Recorded(es, t)
  {
    Append(key, es, Check(at), k);
  }

  lemma FailureCounts(key: string, es: seq<LoginEvent>, k: nat, at: nat, w: nat, n: nat, f: int, t: nat)
    requires Standing(key, es, k, at, w, n, f) && 0 < f <= k && n < U32_MAX
    ensures Standing(key, es + [Failure(at)], k, at, w, n + 1, f - 1)
    ensures Recorded(es + [Failure(at)], t) == Recorded(es, t) + if InSpan(at, t) then 1 else 0
  {
    Append(key, es, Failure(at), k);
  }

  /** n attempts one after the other, each failing. */
  lemma {:induction false} OneByOne(key: string, es: seq<LoginEvent>, k: nat, at: nat, w: nat, n: nat, t: nat)
    returns (longer: seq<LoginEvent>)
    requires Standing(key, es, k, at, w, 0, 0) && 1 <= k && n <= 4 && InSpan(at, t)
    ensures Standing(key, longer, k, at, w, n, 0) && Recorded(longer, t) == Recorded(es, t) + n
  {
    longer := es;
    if n > 0 {
      var before := OneByOne(key, es, k, at, w, n - 1, t);
      CheckLetIn(key, before, k, at, w, n - 1, 0, t);
      FailureCounts(key, before + [Check(at)], k, at, w, n - 1, 1, t);
      longer := before + [Check(at)] + [Failure(at)];
    }
  }

  /** m attempts that are all let in. */
  lemma {:induction false} AllLetIn(key: string, es: seq<LoginEvent>, k: nat, at: nat, w: nat, m: nat, t: nat)
    returns (longer: seq<LoginEvent>)
    requires Standing(key, es, k, at, w, 4, 0) && m <= k
    ensures Standing(key, longer, k, at, w, 4, m) && Recorded(longer, t) == Recorded(es, t)
  {
    longer := es;
    if m > 0 {
      var before := AllLetIn(key, es, k, at, w, m - 1, t);
      CheckLetIn(key, before, k, at, w, 4, m - 1, t);
      longer := before + [Check(at)];
    }
  }

  /** m of the k attempts in flight fail. */
  lemma {:induction false} AllFail(key: string, es: seq<LoginEvent>, k: nat, at: nat, w: nat, m: nat, t: nat)
    returns (longer: seq<LoginEvent>)
    requires Standing(key, es, k, at, w, 4, k) && m <= k && 4 + k <= U32_MAX && InSpan(at, t)
    ensures Standing(key, longer, k, at, w, 4 + m, k - m) && Recorded(longer, t) == Recorded(es, t) + m
  {
    longer := es;
    if m > 0 {
      var before := AllFail(key, es, k, at, w, m - 1, t);
      FailureCounts(key, before, k, at, w, 4 + m - 1, k - m + 1, t);
      longer := before + [Failure(at)];
    }
  }

  /** Four failures, and then k attempts that are all let in before the first of them fails. */
  lemma Round(key: string, es: seq<LoginEvent>, k: nat, at: nat, w: nat, t: nat) returns (longer: seq<LoginEvent>)
    requires Standing(key, es, k, at, w, 0, 0) && 1 <= k && 4 + k <= U32_MAX && InSpan(at, t)
    ensures Standing(key, longer, k, at, w, 4 + k, 0) && Recorded(longer, t) == Recorded(es, t) + 4 + k
  {
    longer := OneByOne(key, es, k, at, w, 4, t);
    longer := AllLetIn(key, longer, k, at, w, k, t);
    longer := AllFail(key, longer, k, at, w, k, t);
  }

  /** One attempt given up: its window is open and holds nothing. */
  lemma Opening(key: string, k: nat, t: nat) returns (es: seq<LoginEvent>)
    requires 1 <= k && t < RATE_LIMIT_WINDOW
    ensures Standing(key, es, k, t, 0, 0, 0) && Recorded(es, t) == 0
  {
    assert Standing(key, [], k, 0, 0, 0, 0);
    CheckLetIn(key, [], k, 0, 0, 0, 0, t);
    Append(key, [] + [Check(0)], Abandoned(0), k);
    es := [] + [Check(0)] + [Abandoned(0)];
  }

  /** When the window has run out the next attempt finds a new one. */
  lemma NextWindow(key: string, es: seq<LoginEvent>, k: nat, t: nat, n: nat)
    requires Standing(key, es, k, t, 0, n, 0) && n > 0 && t == RATE_LIMIT_WINDOW - 1
    ensures Standing(key, es, k, RATE_LIMIT_WINDOW, RATE_LIMIT_WINDOW, 0, 0)
  {
  }

  /** For every k, some history with at most k attempts in flight fills a window with 4 + k failures,
      and puts 2 * (4 + k) of them into fifteen minutes without a success, half at the last moment of
      one window and half at the first of the next. Neither bound can be improved. */
  lemma BoundsAreReached(key: string, k: nat)
    requires 1 <= k && 4 + k <= U32_MAX
    ensures exists es, t: nat ::
              && ValidHistory(key, es, k) && NoSuccessFrom(es, 0)
              && FailuresNow(Run(key, es).attempts, key) == 4 + k
              && FailuresInSpan(es, 0, t) == 2 * (4 + k)
  {
    var t := RATE_LIMIT_WINDOW - 1;
    var es := Opening(key, k, t);
    es := Round(key, es, k, t, 0, t);
    NextWindow(key, es, k, t, 4 + k);
    es := Round(key, es, k, RATE_LIMIT_WINDOW, RATE_LIMIT_WINDOW, t);
    assert FailuresInSpan(es, 0, t) == 2 * (4 + k);
  }
}
