/**
 * The one-second countdown both clients run: the updater
 * `prev => prev <= 1 ? 0 : prev - 1`, where reaching 0 also stops the
 * interval (and, on the student page, fires time-up).
 */
module Countdown {

  /** The limit a question without one of its own gets. */
  const DefaultLimit: nat := 30

  /** Where the countdown of a question starts: `time_limit || 30`. */
  function Start(timeLimit: nat): (t: nat)
    ensures t >= 1
    ensures timeLimit > 0 ==> t == timeLimit
    ensures timeLimit == 0 ==> t == DefaultLimit
  {
    if timeLimit == 0 then DefaultLimit else timeLimit
  }

  /** One tick of the updater. */
  function Next(prev: int): int {
    if prev <= 1 then 0 else prev - 1
  }

  /** Whether this tick is the one that stops the interval. */
  predicate Expires(prev: int) {
    prev <= 1
  }

  /** A tick never goes below zero and never goes up. */
  lemma NextBounds(prev: int)
    requires prev >= 0
    ensures 0 <= Next(prev) <= prev
    ensures Next(prev) < prev || prev == 0
  {
  }

  /** k ticks of an interval started at `remaining`, which stops itself at 0. */
  function Run(remaining: int, running: bool, k: nat): (int, bool)
    decreases k
  {
    if k == 0 || !running then (remaining, running)
    else Run(Next(remaining), !Expires(remaining), k - 1)
  }

  /**
   * Started from a limit N >= 1, the countdown shows N - k after k < N ticks
   * and is still running; from the Nth tick on it shows 0 and has stopped, so
   * the expiry fires exactly once.
   */
  lemma {:induction false} RunFrom(n: int, k: nat)
    requires n >= 1
    ensures k < n ==> Run(n, true, k) == (n - k, true)
    ensures k >= n ==> Run(n, true, k) == (0, false)
  {
    if k > 0 {
      if n == 1 {
        StoppedStays(0, k - 1);
      } else {
        RunFrom(n - 1, k - 1);
      }
    }
  }

  lemma StoppedStays(remaining: int, k: nat)
    ensures Run(remaining, false, k) == (remaining, false)
  {
  }

  /** The tick that stops a countdown started at N is tick number N. */
  lemma ExpiresOnTickN(n: int, k: nat)
    requires n >= 1 && k < n
    ensures Expires(Run(n, true, k).0) <==> k == n - 1
  {
    RunFrom(n, k);
  }

  /**
   * A countdown started for a question runs for exactly its limit (30 when
   * it has none): it is running before that many ticks and stopped at 0 after.
   */
  lemma StartRunsForLimit(timeLimit: nat, k: nat)
    ensures k < Start(timeLimit) ==> Run(Start(timeLimit), true, k) == (Start(timeLimit) - k, true)
    ensures k >= Start(timeLimit) ==> Run(Start(timeLimit), true, k) == (0, false)
    ensures timeLimit == 0 ==> (Run(Start(timeLimit), true, k).1 <==> k < 30)
  {
    RunFrom(Start(timeLimit), k);
  }
}
