/**
 * `KnipServerStartupHandler`: one start-up sequence per project at a time. The sequence waits
 * for a Running Knip server and sends it the start command once.
 */
module StartupHandler {
  import opened Wrappers
  import Servers
  import opened Projects

  /* The guard map holds only `true` values, so it is modelled as the set of its keys. */

  /** The guard after `initiateStartup`: `putIfAbsent` adds the key if it is missing. */
  function AfterInitiate(inProgress: set<string>, key: string): set<string> {
    inProgress + {key}
  }

  /** Whether `initiateStartup` launches a sequence: only when `putIfAbsent` finds no entry. */
  predicate Launches(inProgress: set<string>, key: string) {
    key !in inProgress
  }

  /** The guard after the sequence ends, or after `clearStartupState`. */
  function AfterRemove(inProgress: set<string>, key: string): set<string> {
    inProgress - {key}
  }

  /**
   * A second start-up while one is in progress launches nothing and leaves the guard as it is;
   * once the sequence ends or the state is cleared, the next one launches again.
   */
  lemma GuardCycle(inProgress: set<string>, key: string, other: string)
    ensures !Launches(AfterInitiate(inProgress, key), key)
    ensures AfterInitiate(AfterInitiate(inProgress, key), key) == AfterInitiate(inProgress, key)
    ensures Launches(AfterRemove(AfterInitiate(inProgress, key), key), key)
    ensures other != key ==> (Launches(AfterInitiate(inProgress, key), other) <==> Launches(inProgress, other))
  {
  }

  /** The start command sent to the chosen server. Its name is not part of this model. */
  datatype SendOutcome = Sent | Caught

  /** The outcome of the sequence: a start command for server `server` at poll `poll`, or a timeout. */
  datatype StartupOutcome = Started(poll: nat, server: nat, outcome: SendOutcome) | GaveUp

  /**
   * `waitForServerAndStart`: poll until a Running server appears and send it the start
   * command, or give up after 300 polls without sending. `sendThrows` says whether the
   * request throws; the exception is caught and logged.
   */
  method WaitForServerAndStart(serversAt: nat -> seq<Servers.ServerState>, sendThrows: bool)
    returns (r: StartupOutcome, polls: nat)
    ensures polls <= Servers.MAX_POLLS
    ensures r.Started? ==>
      && polls == r.poll + 1
      && Servers.FirstRunning(serversAt(r.poll)) == Some(r.server)
      && (forall p :: 0 <= p < r.poll ==> Servers.Running !in serversAt(p))
      && (r.outcome == Sent <==> !sendThrows)
    ensures r.GaveUp? ==> polls == Servers.MAX_POLLS && forall p :: 0 <= p < polls ==> Servers.Running !in serversAt(p)
  {
    var found;
    found, polls := Servers.PollForRunningServer(serversAt);
    if found.TimedOut? {
      r := GaveUp;
      return;
    }
    var outcome := SendKnipStartCommand(sendThrows);
    r := Started(found.poll, found.server, outcome);
  }

  /** `sendKnipStartCommand`: a failure is caught and reported, never propagated. */
  method SendKnipStartCommand(sendThrows: bool) returns (outcome: SendOutcome)
    ensures outcome == Sent <==> !sendThrows
  {
    if sendThrows {
      outcome := Caught;
    } else {
      outcome := Sent;
    }
  }

  /** The `KnipServerStartupHandler` object. */
  class KnipServerStartupHandler {
    /** The keys of `startupInProgress`. */
    var startupInProgress: set<string>

    constructor()
      ensures startupInProgress == {}
    {
      startupInProgress := {};
    }

    /**
     * `initiateStartup`: claims the project's key; `launched` says whether a sequence is
     * launched (the key was free) or the call was skipped.
     */
    method InitiateStartup(basePath: Option<string>, projectName: string) returns (launched: bool)
      modifies this
      ensures launched <==> Launches(old(startupInProgress), ProjectKey(basePath, projectName))
      ensures startupInProgress == AfterInitiate(old(startupInProgress), ProjectKey(basePath, projectName))
    {
      var projectPath := ProjectKey(basePath, projectName);
      if projectPath in startupInProgress {
        launched := false;
        return;
      }
      startupInProgress := startupInProgress + {projectPath};
      launched := true;
    }

    /**
     * The launched coroutine: the wait-and-start sequence, then, in `finally`, the key is
     * released whatever the outcome.
     */
    method RunStartup(projectPath: string, serversAt: nat -> seq<Servers.ServerState>, sendThrows: bool)
      returns (r: StartupOutcome)
      modifies this
      ensures startupInProgress == AfterRemove(old(startupInProgress), projectPath)
      ensures r.Started? ==> Servers.FirstRunning(serversAt(r.poll)) == Some(r.server) && r.poll < Servers.MAX_POLLS
    {
      var polls;
      r, polls := WaitForServerAndStart(serversAt, sendThrows);
      startupInProgress := startupInProgress - {projectPath};
    }

    /** `clearStartupState`, which the restart action calls before restarting. */
    method ClearStartupState(basePath: Option<string>, projectName: string)
      modifies this
      ensures startupInProgress == AfterRemove(old(startupInProgress), ProjectKey(basePath, projectName))
    {
      startupInProgress := startupInProgress - {ProjectKey(basePath, projectName)};
    }
  }

  /** Two start-ups in a row for one project launch one sequence. */
  method InitiateTwice(h: KnipServerStartupHandler, basePath: Option<string>, projectName: string)
    returns (first: bool, second: bool)
    modifies h
    ensures !second
    ensures first <==> ProjectKey(basePath, projectName) !in old(h.startupInProgress)
  {
    first := h.InitiateStartup(basePath, projectName);
    second := h.InitiateStartup(basePath, projectName);
  }

  /** The restart action: clearing the state lets the next start-up launch, even mid-sequence. */
  method RestartThenInitiate(h: KnipServerStartupHandler, basePath: Option<string>, projectName: string)
    returns (launched: bool)
    modifies h
    ensures launched
  {
    h.ClearStartupState(basePath, projectName);
    launched := h.InitiateStartup(basePath, projectName);
  }
}
