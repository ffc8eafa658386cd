/** The reconnection policy that `MultiplayerWebSocket` (src/lib/websocket.ts)
    and `GameWebSocket` (src/lib/api.ts) both implement, in identical copies:
    each close event bumps an attempt counter while it is below a ceiling of 5
    and schedules a new `connect()` after `reconnectDelay * attempts` ms
    (1000, 2000, ... — linear, not exponential); at the ceiling it schedules
    nothing. A successful open resets the counter. */
module Reconnect {

  import opened Common

  const MaxReconnectAttempts: nat := 5
  const ReconnectDelay: nat := 1000

  /** The counter after `attemptReconnect`, and the delay (ms) of the
      `connect()` it schedules, if it schedules one. */
  datatype Decision = Decision(attempts: nat, delay: Option<nat>)

  function AttemptReconnect(attempts: nat): (d: Decision)
    ensures attempts <= MaxReconnectAttempts ==> d.attempts <= MaxReconnectAttempts
    ensures d.delay.Some? <==> attempts < MaxReconnectAttempts
    ensures d.delay.Some? ==> d.delay.value == ReconnectDelay * d.attempts
  {
    if attempts < MaxReconnectAttempts then
      Decision(attempts + 1, Some(ReconnectDelay * (attempts + 1)))
    else
      Decision(attempts, None)
  }

  /** The delays scheduled by `n` close events in a row with no successful
      open in between, starting from counter `attempts`. */
  function FailureRun(attempts: nat, n: nat): (delays: seq<Option<nat>>)
    ensures |delays| == n
    decreases n
  {
    if n == 0 then []
    else
      var d := AttemptReconnect(attempts);
      [d.delay] + FailureRun(d.attempts, n - 1)
  }

  /** The k-th close event of a run schedules a retry after 1000·(a+k+1) ms
      while the ceiling has not been reached, and nothing afterwards. */
  lemma {:induction false} FailureRunDelays(a: nat, n: nat)
    requires a <= MaxReconnectAttempts
    ensures forall k :: 0 <= k < n ==>
      FailureRun(a, n)[k] == if a + k < MaxReconnectAttempts then Some(ReconnectDelay * (a + k + 1)) else None
    decreases n
  {
    if n > 0 {
      var d := AttemptReconnect(a);
      FailureRunDelays(d.attempts, n - 1);
      var run := FailureRun(a, n);
      assert run == [d.delay] + FailureRun(d.attempts, n - 1);
      forall k | 0 <= k < n
        ensures run[k] == if a + k < MaxReconnectAttempts then Some(ReconnectDelay * (a + k + 1)) else None
      {
        if k > 0 {
          assert run[k] == FailureRun(d.attempts, n - 1)[k - 1];
          if a < MaxReconnectAttempts {
            assert d.attempts + (k - 1) == a + k;
          } else {
            assert d.attempts == a;
          }
        }
      }
    }
  }

  /** Number of retries that a list of decisions actually scheduled. */
  function Scheduled(delays: seq<Option<nat>>): (c: nat)
    ensures c <= |delays|
  {
    if delays == [] then 0 else (if delays[0].Some? then 1 else 0) + Scheduled(delays[1..])
  }

  /** However many close events arrive in a row, a fresh counter schedules
      at most `MaxReconnectAttempts` retries — exactly min(n, 5). */
  lemma {:induction false} FailureRunBounded(a: nat, n: nat)
    requires a <= MaxReconnectAttempts
    ensures Scheduled(FailureRun(a, n)) == if n < MaxReconnectAttempts - a then n else MaxReconnectAttempts - a
    decreases n
  {
    if n > 0 {
      var d := AttemptReconnect(a);
      FailureRunBounded(d.attempts, n - 1);
      var run := FailureRun(a, n);
      assert run[1..] == FailureRun(d.attempts, n - 1);
    }
  }

  /** Back-off is linear: two consecutive scheduled retries are exactly one
      `reconnectDelay` apart (exponential back-off would double instead). */
  lemma LinearBackoff(a: nat, n: nat, k: nat)
    requires a <= MaxReconnectAttempts
    requires k + 1 < n && a + k + 1 < MaxReconnectAttempts
    ensures FailureRun(a, n)[k].Some? && FailureRun(a, n)[k + 1].Some?
    ensures FailureRun(a, n)[k + 1].value == FailureRun(a, n)[k].value + ReconnectDelay
  {
    FailureRunDelays(a, n);
  }
}
