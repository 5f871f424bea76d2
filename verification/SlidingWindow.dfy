/** The provider rate limiter (go-domain/airuntime/admission.go:27-56).  Times are integers of one unit. */
module SlidingWindow {

  /** The admissions still inside the window that ends now. */
  function Recent(calls: seq<int>, cutoff: int): seq<int> {
    if calls != [] && calls[0] <= cutoff then Recent(calls[1..], cutoff) else calls
  }

  /** One pass under the lock: the calls to remember, and whether this one is admitted. */
  function Pass(calls: seq<int>, limit: nat, window: nat, now: int): (seq<int>, bool) {
    var kept := Recent(calls, now - window);
    if |kept| < limit then (kept + [now], true) else (kept, false)
  }

  class Limiter {
    const limit: nat
    const window: nat
    var calls: seq<int>

    constructor (limit: int, window: nat)
      ensures this.limit == (if limit < 1 then 1 else limit) && this.window == window && calls == []
    {
      this.limit := if limit < 1 then 1 else limit;
      this.window := window;
      calls := [];
    }

    /** One turn of the loop of Acquire; a caller that is not admitted waits for `wait` and tries again. */
    method TryAcquire(now: int) returns (admitted: bool, wait: int)
      requires limit >= 1
      modifies this`calls
      ensures (calls, admitted) == Pass(old(calls), limit, window, now)
      ensures !admitted ==> |calls| >= limit && wait == (if calls[0] + window < now then 0 else calls[0] + window - now)
    {
      var cutoff := now - window;
      var first := 0;
      while first < |calls| && calls[first] <= cutoff
        invariant 0 <= first <= |calls|
        invariant Recent(calls, cutoff) == Recent(calls[first..], cutoff)
      {
        assert calls[first..][1..] == calls[first + 1..];
        first := first + 1;
      }
      if first > 0 {
        calls := calls[first..];
      }
      if |calls| < limit {
        calls := calls + [now];
        return true, 0;
      }
      wait := calls[0] + window - now;
      if wait < 0 { wait := 0; }
      admitted := false;
    }
  }

  // ---------- every run of concurrent callers ----------

  /** The limiter after a sequence of passes at the given times, with every admission so far. */
  datatype History = History(calls: seq<int>, admitted: seq<int>)

  function Run(times: seq<int>, limit: nat, window: nat): History {
    if times == [] then History([], [])
    else
      var h := Run(times[..|times| - 1], limit, window);
      var now := times[|times| - 1];
      var (calls, ok) := Pass(h.calls, limit, window, now);
      History(calls, if ok then h.admitted + [now] else h.admitted)
  }

  predicate Ordered(times: seq<int>) {
    forall i, j | 0 <= i < j < |times| :: times[i] <= times[j]
  }

  /** The remembered calls are the last admissions, and everything forgotten is a window old. */
  ghost predicate Remembers(h: History, limit: nat, window: nat, now: int) {
    && |h.calls| <= limit && |h.calls| <= |h.admitted| && h.calls == h.admitted[|h.admitted| - |h.calls|..]
    && (forall i | 0 <= i < |h.admitted| :: h.admitted[i] <= now)
    && (forall i | 0 <= i < |h.admitted| - |h.calls| :: h.admitted[i] <= now - window)
  }

  ghost predicate Spaced(admitted: seq<int>, limit: nat, window: nat) {
    forall i | 0 <= i && i + limit < |admitted| :: admitted[i + limit] - admitted[i] >= window
  }

  lemma {:induction false} RecentIsSuffix(calls: seq<int>, cutoff: int) returns (n: nat)
    ensures n <= |calls| && Recent(calls, cutoff) == calls[n..] && forall i | 0 <= i < n :: calls[i] <= cutoff
  {
    if calls != [] && calls[0] <= cutoff {
      var m := RecentIsSuffix(calls[1..], cutoff);
      n := m + 1;
      assert calls[n..] == calls[1..][m..];
      forall i | 0 <= i < n ensures calls[i] <= cutoff {
        assert i > 0 ==> calls[i] == calls[1..][i - 1];
      }
    } else {
      n := 0;
    }
  }

  lemma SuffixOfSuffix(s: seq<int>, k: nat, n: nat)
    requires k + n <= |s|
    ensures s[k..][n..] == s[k + n..]
  {}

  /** Forgetting what is a window old. */
  lemma ForgetKeeps(h: History, limit: nat, window: nat, last: int, now: int)
    requires Remembers(h, limit, window, last) && last <= now
    ensures Remembers(History(Recent(h.calls, now - window), h.admitted), limit, window, now)
  {
    var n := RecentIsSuffix(h.calls, now - window);
    var forgotten := |h.admitted| - |h.calls|;
    SuffixOfSuffix(h.admitted, forgotten, n);
    forall i | 0 <= i < forgotten + n ensures h.admitted[i] <= now - window {
      assert i >= forgotten ==> h.admitted[i] == h.calls[i - forgotten];
    }
  }

  lemma SuffixGrows(s: seq<int>, k: nat, x: int)
    requires k <= |s|
    ensures (s + [x])[k..] == s[k..] + [x]
  {}

  /** Admitting one more call. */
  lemma AdmitKeeps(h: History, limit: nat, window: nat, now: int)
    requires Remembers(h, limit, window, now) && |h.calls| < limit
    ensures Remembers(History(h.calls + [now], h.admitted + [now]), limit, window, now)
  {
    SuffixGrows(h.admitted, |h.admitted| - |h.calls|, now);
  }

  lemma PassKeeps(h: History, limit: nat, window: nat, last: int, now: int)
    requires Remembers(h, limit, window, last) && last <= now && limit >= 1
    ensures var (calls, ok) := Pass(h.calls, limit, window, now);
            Remembers(History(calls, if ok then h.admitted + [now] else h.admitted), limit, window, now)
  {
    var kept := Recent(h.calls, now - window);
    ForgetKeeps(h, limit, window, last, now);
    if |kept| < limit { AdmitKeeps(History(kept, h.admitted), limit, window, now); }
  }

  lemma AdmissionIsSpaced(h: History, limit: nat, window: nat, last: int, now: int)
    requires Remembers(h, limit, window, last) && last <= now && limit >= 1 && Spaced(h.admitted, limit, window)
    requires Pass(h.calls, limit, window, now).1
    ensures Spaced(h.admitted + [now], limit, window)
  {
    PassKeeps(h, limit, window, last, now);
  }

  lemma StepRemembers(h: History, limit: nat, window: nat, last: int, at: int, now: int)
    requires Remembers(h, limit, window, last) && Spaced(h.admitted, limit, window) && last <= at <= now && limit >= 1
    ensures var (calls, ok) := Pass(h.calls, limit, window, at);
            var next := History(calls, if ok then h.admitted + [at] else h.admitted);
            Remembers(next, limit, window, now) && Spaced(next.admitted, limit, window)
  {
    PassKeeps(h, limit, window, last, at);
    if Pass(h.calls, limit, window, at).1 { AdmissionIsSpaced(h, limit, window, last, at); }
  }

  lemma {:induction false} RunRemembers(times: seq<int>, limit: nat, window: nat, now: int)
    requires Ordered(times) && limit >= 1 && (times != [] ==> times[|times| - 1] <= now)
    ensures Remembers(Run(times, limit, window), limit, window, now)
    ensures Spaced(Run(times, limit, window).admitted, limit, window)
  {
    if times != [] {
      var n := |times| - 1;
      RunRemembers(times[..n], limit, window, times[n]);
      StepRemembers(Run(times[..n], limit, window), limit, window, times[n], times[n], now);
    }
  }

  /** With a clock that does not go back, no window of the given length ever holds more than `limit` admissions. */
  lemma AdmitsAtMostLimit(times: seq<int>, limit: nat, window: nat, i: nat)
    requires Ordered(times) && limit >= 1 && i + limit < |Run(times, limit, window).admitted|
    ensures var admitted := Run(times, limit, window).admitted; admitted[i + limit] - admitted[i] >= window
  {
    RunRemembers(times, limit, window, if times == [] then 0 else times[|times| - 1]);
  }

  /** And none is refused needlessly: a refusal means that `limit` admissions lie inside the window. */
  lemma RefusalMeansFull(times: seq<int>, limit: nat, window: nat, now: int)
    requires Ordered(times) && limit >= 1 && (times != [] ==> times[|times| - 1] <= now)
    requires !Pass(Run(times, limit, window).calls, limit, window, now).1
    ensures var admitted := Run(times, limit, window).admitted;
            |admitted| >= limit && forall i | |admitted| - limit <= i < |admitted| :: now - window < admitted[i] <= now
  {
    RunRemembers(times, limit, window, now);
    AdmittedInOrder(times, limit, window);
    RefusedHistory(Run(times, limit, window), limit, window, now);
  }

  lemma RefusedHistory(h: History, limit: nat, window: nat, now: int)
    requires Remembers(h, limit, window, now) && Ordered(h.admitted) && limit >= 1
    requires !Pass(h.calls, limit, window, now).1
    ensures |h.admitted| >= limit
    ensures forall i | |h.admitted| - limit <= i < |h.admitted| :: now - window < h.admitted[i] <= now
  {
    FullMeansRecent(h.calls, limit, now - window);
    var n := |h.admitted| - limit;
    assert h.calls[0] == h.admitted[n];
    forall i | n <= i < |h.admitted| ensures now - window < h.admitted[i] <= now {
      assert n < i ==> h.admitted[n] <= h.admitted[i];
    }
  }

  lemma FullMeansRecent(calls: seq<int>, limit: nat, cutoff: int)
    requires |calls| <= limit <= |Recent(calls, cutoff)| && limit >= 1
    ensures |calls| == limit && calls[0] > cutoff
  {
    var n := RecentIsSuffix(calls, cutoff);
    if calls[0] <= cutoff {
      var m := RecentIsSuffix(calls[1..], cutoff);
    }
  }

  lemma {:induction false} AdmittedInOrder(times: seq<int>, limit: nat, window: nat)
    requires Ordered(times)
    ensures Ordered(Run(times, limit, window).admitted)
    ensures forall a <- Run(times, limit, window).admitted :: times != [] && a <= times[|times| - 1]
  {
    if times != [] {
      var n := |times| - 1;
      AdmittedInOrder(times[..n], limit, window);
      var h := Run(times[..n], limit, window);
      assert forall i | 0 <= i < |h.admitted| :: h.admitted[i] in h.admitted;
    }
  }
}
