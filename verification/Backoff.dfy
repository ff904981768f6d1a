/**
 The growing delay after a wrong flip key, on a node that follows nobody.
 */
module Backoff {
  import opened Controller

  /** One request: when it took the lock, when it read the clock again, and what it carried. */
  datatype Attempt = Attempt(now: int, later: int, request: FlipRequest)

  ghost predicate InTime(attempts: seq<Attempt>) {
    && (forall j :: 0 <= j < |attempts| ==> attempts[j].now <= attempts[j].later)
    && (forall i, j :: 0 <= i < j < |attempts| ==> attempts[i].later <= attempts[j].now)
  }

  /** The request gets as far as the comparison of keys, and fails it. */
  predicate WrongKey(n: Node, a: Attempt) {
    && n.exposed.Some? && !n.borrowed && n.link.None?
    && a.now >= n.exposed.value.blockUntil && !ClockFails(n.exposed.value, a.request, a.now)
    && a.request.key != n.exposed.value.key
  }

  function After(n: Node, attempts: seq<Attempt>): Node {
    if attempts == [] then n
    else
      var before, a := After(n, attempts[..|attempts| - 1]), attempts[|attempts| - 1];
      Decide(before, a.request, a.now, a.later).0
  }

  /** When the wrong-key attempts were made that reached the comparison. */
  function WrongKeyTimes(n: Node, attempts: seq<Attempt>): seq<int> {
    if attempts == [] then []
    else
      var rest, a := attempts[..|attempts| - 1], attempts[|attempts| - 1];
      WrongKeyTimes(n, rest) + (if WrongKey(After(n, rest), a) then [a.now] else [])
  }

  function Pow2(k: nat): nat {
    if k == 0 then 1 else 2 * Pow2(k - 1)
  }

  /** Every other attempt, among them all the blocked ones, changes nothing. */
  lemma OnlyWrongKeysCount(n: Node, a: Attempt)
    ensures Decide(n, a.request, a.now, a.later).0 != n ==> WrongKey(n, a)
    ensures n.exposed.Some? && a.now < n.exposed.value.blockUntil ==>
              Decide(n, a.request, a.now, a.later) == (n, Refused)
  {
  }

  /** The state between attempts: how long the delay has grown, and until when attempts are blocked. */
  ghost predicate Delayed(n: Node, times: seq<int>) {
    && n.exposed.Some?
    && n.exposed.value.delay == Pow2(|times|) * ONE_SECOND
    && (times != [] ==> n.exposed.value.blockUntil >= times[|times| - 1] + Pow2(|times| - 1) * ONE_SECOND)
  }

  ghost predicate Spaced(times: seq<int>) {
    forall j :: 0 < j < |times| ==> times[j] >= times[j - 1] + Pow2(j - 1) * ONE_SECOND
  }

  lemma {:induction false} DelayDoubles(n: Node, attempts: seq<Attempt>)
    requires InTime(attempts) && n.exposed.Some? && n.exposed.value.delay == ONE_SECOND
    ensures Delayed(After(n, attempts), WrongKeyTimes(n, attempts))
    ensures Spaced(WrongKeyTimes(n, attempts))
    decreases |attempts|
  {
    if attempts != [] {
      var rest, a := attempts[..|attempts| - 1], attempts[|attempts| - 1];
      DelayDoubles(n, rest);
      var before, times := After(n, rest), WrongKeyTimes(n, rest);
      OnlyWrongKeysCount(before, a);
      assert a.now <= a.later;
      assert Pow2(|times| + 1) == 2 * Pow2(|times|);
    }
  }

  /** In every run, the attempt number `j + 1` to fail on the key comes at least 2^j - 1 seconds after
      the first. */
  lemma {:induction false} GuessingIsSlow(n: Node, attempts: seq<Attempt>, j: nat)
    requires InTime(attempts) && n.exposed.Some? && n.exposed.value.delay == ONE_SECOND
    requires j < |WrongKeyTimes(n, attempts)|
    ensures WrongKeyTimes(n, attempts)[j] >= WrongKeyTimes(n, attempts)[0] + (Pow2(j) - 1) * ONE_SECOND
    decreases j
  {
    if 0 < j {
      GuessingIsSlow(n, attempts, j - 1);
      DelayDoubles(n, attempts);
    }
  }
}
