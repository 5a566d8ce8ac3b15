/** The per-chat sliding-window limiter of `checkRateLimit` in
    src/services/whatsappService.js: a chat may send `limit` messages in
    any `window` milliseconds. Each chat's entry is the list of the times
    of its admitted messages. */
module RateLimit {
  import opened Seqs

  /** The filter `now - time < window`. */
  function InWindow(now: int, window: int): int -> bool {
    t => now - t < window
  }

  /** The stored times that still count at `now`. */
  function Recent(times: seq<int>, now: int, window: int): seq<int> {
    Filter(times, InWindow(now, window))
  }

  /** What one check answers and what it leaves stored for the chat. */
  datatype Admission = Admission(allowed: bool, stored: seq<int>)

  /** One check at `now` against the chat's stored times. A refusal
      leaves the stored list as it was, expired times included; an
      admission stores the recent times followed by `now`. */
  function Decide(times: seq<int>, now: int, limit: nat, window: int): (d: Admission)
    ensures d.allowed <==> |Recent(times, now, window)| < limit
    ensures d.allowed ==> d.stored == Recent(times, now, window) + [now]
    ensures !d.allowed ==> d.stored == times
  {
    if |Recent(times, now, window)| >= limit then Admission(false, times)
    else Admission(true, Recent(times, now, window) + [now])
  }

  /** The number of checks admitted when a chat asks at the given times in
      turn, starting from `times`. */
  function Admitted(times: seq<int>, requests: seq<int>, limit: nat, window: int): nat
    decreases |requests|
  {
    if requests == [] then 0
    else
      (if Decide(times, requests[0], limit, window).allowed then 1 else 0)
      + Admitted(Decide(times, requests[0], limit, window).stored, requests[1..], limit, window)
  }

  /** After an admission the chat holds at most `limit` times. */
  lemma AdmissionWithinLimit(times: seq<int>, now: int, limit: nat, window: int)
    requires Decide(times, now, limit, window).allowed
    ensures |Decide(times, now, limit, window).stored| <= limit
  {
  }

  /** After an admission under a positive window, every stored time is
      inside the window that ends at `now`. */
  lemma AdmissionKeepsOnlyRecent(times: seq<int>, now: int, limit: nat, window: int, i: nat)
    requires window > 0 && Decide(times, now, limit, window).allowed
    requires i < |Decide(times, now, limit, window).stored|
    ensures now - Decide(times, now, limit, window).stored[i] < window
  {
    var recent := Recent(times, now, window);
    if i < |recent| {
      var j := FilterElement(times, InWindow(now, window), i);
      assert (recent + [now])[i] == recent[i];
    }
  }

  /** Times that have left the window make no difference to a check. */
  lemma ExpiredIgnored(expired: seq<int>, times: seq<int>, now: int, limit: nat, window: int)
    requires forall i :: 0 <= i < |expired| ==> now - expired[i] >= window
    ensures Decide(expired + times, now, limit, window).allowed == Decide(times, now, limit, window).allowed
    ensures Decide(times, now, limit, window).allowed ==>
      Decide(expired + times, now, limit, window).stored == Decide(times, now, limit, window).stored
  {
    FilterAppend(expired, times, InWindow(now, window));
    FilterNone(expired, InWindow(now, window));
  }

  /** The times at or after `start`. */
  function Since(start: int): int -> bool {
    t => t >= start
  }

  /** Once anything in the burst is admitted, the admissions and the
      stored times since the burst began fit together under `limit`. */
  lemma {:induction false} AdmittedCounted(times: seq<int>, requests: seq<int>, start: int, limit: nat, window: int)
    requires forall i :: 0 <= i < |requests| ==> start <= requests[i] < start + window
    ensures Admitted(times, requests, limit, window) > 0 ==>
            Count(times, Since(start)) + Admitted(times, requests, limit, window) <= limit
    decreases |requests|
  {
    if requests != [] {
      var now := requests[0];
      var d := Decide(times, now, limit, window);
      assert forall x :: x in times && Since(start)(x) ==> InWindow(now, window)(x);
      CountAfterFilter(times, InWindow(now, window), Since(start));
      if d.allowed {
        CountSnoc(Recent(times, now, window), now, Since(start));
        assert Count(d.stored, Since(start)) == Count(times, Since(start)) + 1;
        assert Count(d.stored, Since(start)) <= limit;
      }
      AdmittedCounted(d.stored, requests[1..], start, limit, window);
    }
  }

  /** Whatever the chat held before, a burst of checks that all fall in one
      window of time is admitted at most `limit` times. */
  lemma BurstAdmittedAtMostLimit(times: seq<int>, requests: seq<int>, start: int, limit: nat, window: int)
    requires forall i :: 0 <= i < |requests| ==> start <= requests[i] < start + window
    ensures Admitted(times, requests, limit, window) <= limit
  {
    AdmittedCounted(times, requests, start, limit, window);
  }
}
