/**
 * The language servers the IDE's `LspServerManager` reports for the Knip provider, and the
 * bounded "wait until one is Running" poll that both the startup handler and the support
 * provider perform: every 100 ms, for at most 30 000 ms.
 */
module Servers {
  import opened Wrappers

  /** `LspServerState` of the IDE's LSP API. */
  datatype ServerState = Initializing | Running | ShutdownNormally | ShutdownUnexpectedly

  const MAX_WAIT_MS: nat := 30000
  const POLL_INTERVAL_MS: nat := 100

  /** The number of polls the wait loop can make: 30000 / 100. */
  const MAX_POLLS: nat := MAX_WAIT_MS / POLL_INTERVAL_MS

  /**
   * `servers.find { it.state == Running }`, as an index: the first Running server in list order.
   */
  function FirstRunning(servers: seq<ServerState>): (r: Option<nat>)
    ensures r.None? <==> Running !in servers
    ensures r.Some? ==> r.value < |servers| && servers[r.value] == Running
    ensures r.Some? ==> forall j :: 0 <= j < r.value ==> servers[j] != Running
  {
    if servers == [] then None
    else if servers[0] == Running then Some(0)
    else
      match FirstRunning(servers[1..])
      case None => None
      case Some(k) => Some(k + 1)
  }

  /** The outcome of a wait: the poll at which a Running server was seen, and which one. */
  datatype PollOutcome = Ready(poll: nat, server: nat) | TimedOut

  /**
   * The wait loop of `waitForServerAndStart` and `waitForServerReady`. `serversAt(p)` is the
   * server list that `getServersForProvider` returns at the `p`-th poll (the clock and the
   * server manager are the environment). Returns at the first poll that sees a Running server;
   * `polls` is the number of polls made.
   */
  method PollForRunningServer(serversAt: nat -> seq<ServerState>) returns (r: PollOutcome, polls: nat)
    ensures polls <= MAX_POLLS
    ensures r.Ready? ==> polls == r.poll + 1 && FirstRunning(serversAt(r.poll)) == Some(r.server)
    ensures r.TimedOut? ==> polls == MAX_POLLS
    ensures forall p :: 0 <= p < polls - 1 ==> Running !in serversAt(p)
    ensures r.TimedOut? ==> forall p :: 0 <= p < MAX_POLLS ==> Running !in serversAt(p)
  {
    var waited: nat := 0;
    polls := 0;
    while waited < MAX_WAIT_MS
      invariant waited == polls * POLL_INTERVAL_MS && polls <= MAX_POLLS
      invariant forall p :: 0 <= p < polls ==> Running !in serversAt(p)
    {
      var servers := serversAt(polls);
      var running := FirstRunning(servers);
      polls := polls + 1;
      if running.Some? {
        return Ready(polls - 1, running.value), polls;
      }
      waited := waited + POLL_INTERVAL_MS;
    }
    r := TimedOut;
  }
}
