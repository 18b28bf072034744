/** The extension's side of a request (chrome-extension/src/command-router.js, class
    `CommandRouter`): a request id runs at most once at a time, and a cancelled run
    reports cancellation whatever its handler did. */
module CommandRouter {
  import opened Text

  datatype CommandOutcome = Success(json: string) | Failed(code: string)

  /** A run in `activeRequests`: its handler is running, its outcome is waiting to be
      sent, or it has been sent. */
  datatype Execution = Running(aborted: bool) | Settled(outcome: CommandOutcome) | Responded

  const CANCELLED := "CANCELLED"

  /** What `execute` reports when the handler ends with `result`. */
  function Reported(aborted: bool, result: CommandOutcome): CommandOutcome {
    if aborted then Failed(CANCELLED) else result
  }

  class Controller {
    var aborted: bool

    constructor ()
      ensures !aborted
    {
      aborted := false;
    }
  }

  class CommandRouter {
    var activeRequests: map<string, Controller>

    /** Every run has a controller of its own. */
    ghost predicate Valid()
      reads this
    {
      forall i, j :: i in activeRequests && j in activeRequests && i != j ==> activeRequests[i] != activeRequests[j]
    }

    ghost function Aborted(): map<string, bool>
      reads this, activeRequests.Values
    {
      map id | id in activeRequests :: activeRequests[id].aborted
    }

    constructor ()
      ensures Valid() && Aborted() == map[]
    {
      activeRequests := map[];
    }

    /** The start of `execute`: refused while the same id is running. */
    method Begin(requestID: string) returns (started: bool, controller: Controller)
      requires Valid()
      modifies this
      ensures Valid() && fresh(controller) && !controller.aborted
      ensures started == (requestID !in old(activeRequests))
      ensures activeRequests == if started then old(activeRequests)[requestID := controller] else old(activeRequests)
    {
      controller := new Controller();
      started := requestID !in activeRequests;
      if started {
        activeRequests := activeRequests[requestID := controller];
      }
    }

    /** Aborts the run of this id and no other. */
    method Cancel(requestID: string) returns (found: bool)
      requires Valid()
      modifies activeRequests.Values
      ensures found == (requestID in activeRequests)
      ensures Aborted() == if found then old(Aborted())[requestID := true] else old(Aborted())
    {
      if requestID !in activeRequests { return false; }
      activeRequests[requestID].aborted := true;
      found := true;
    }

    /** The end of the `try` of `execute`. */
    method Settle(controller: Controller, result: CommandOutcome) returns (outcome: CommandOutcome)
      ensures outcome == Reported(controller.aborted, result)
    {
      if controller.aborted {
        outcome := Failed(CANCELLED);
      } else {
        outcome := result;
      }
    }

    /** The `finally` of `execute`. */
    method End(requestID: string)
      requires Valid()
      modifies this
      ensures Valid() && activeRequests == old(activeRequests) - {requestID}
    {
      activeRequests := activeRequests - {requestID};
    }
  }
}
