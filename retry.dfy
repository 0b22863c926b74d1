/** The bounded retry of `connect()`: what a run of the loop returns and how
    many handshakes it starts, given the broker's answer to each attempt. */
module Retry {

  /** Whether the run connected, and how many calls to the client's connect
      it made. */
  datatype Run = Run(accepted: bool, attempts: nat)

  /** The rest of the loop once `count` attempts have been refused: stop at
      `limit`, stop after the first accepted attempt, otherwise try again. */
  function AttemptsFrom(outcomes: seq<bool>, limit: nat, count: nat): (r: Run)
    requires count <= limit <= |outcomes|
    decreases limit - count
    ensures count <= r.attempts <= limit
    ensures r.accepted ==> r.attempts > count && outcomes[r.attempts - 1]
    ensures r.accepted ==> forall j :: count <= j < r.attempts - 1 ==> !outcomes[j]
    ensures !r.accepted ==> r.attempts == limit && forall j :: count <= j < limit ==> !outcomes[j]
  {
    if count == limit then Run(false, count)
    else if outcomes[count] then Run(true, count + 1)
    else AttemptsFrom(outcomes, limit, count + 1)
  }

  /** A whole `connect()`: no attempt at all when the session is already up
      (and the result is then `false`), otherwise the loop from zero. */
  function ConnectRun(connected: bool, limit: nat, outcomes: seq<bool>): (r: Run)
    requires limit <= |outcomes|
    ensures r.attempts <= limit
    ensures connected ==> r == Run(false, 0)
    ensures r.accepted <==> !connected && exists k :: 0 <= k < limit && outcomes[k]
    ensures r.accepted ==> r.attempts > 0 && outcomes[r.attempts - 1]
    ensures r.accepted ==> forall j :: 0 <= j < r.attempts - 1 ==> !outcomes[j]
    ensures !r.accepted && !connected ==> r.attempts == limit
  {
    if connected then Run(false, 0) else AttemptsFrom(outcomes, limit, 0)
  }

  /** A broker that first accepts on attempt `k + 1` (within the limit) gets
      exactly `k + 1` handshakes and the connect succeeds. */
  lemma AcceptedOnAttempt(outcomes: seq<bool>, limit: nat, k: nat)
    requires k < limit <= |outcomes|
    requires outcomes[k] && forall j :: 0 <= j < k ==> !outcomes[j]
    ensures ConnectRun(false, limit, outcomes) == Run(true, k + 1)
  {
  }

  /** A broker that refuses every attempt gets exactly `limit` handshakes and
      the connect fails. */
  lemma RefusedEveryAttempt(outcomes: seq<bool>, limit: nat)
    requires limit <= |outcomes|
    requires forall j :: 0 <= j < limit ==> !outcomes[j]
    ensures ConnectRun(false, limit, outcomes) == Run(false, limit)
  {
  }
}
