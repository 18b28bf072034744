/** The table of in-flight requests (internal/router/router.go).  Results travel to
    the waiting `Send` through a channel with room for one; pushing into a full
    channel would block, so an empty slot is a precondition of every push. */
module Router {
  import opened Text

  datatype Key = Key(browserID: string, requestID: string)

  /** A table row: the connection the request went through, and whose request it is. */
  datatype Slot<+P> = Slot(connectionID: string, owner: P)

  type Pending<P> = map<Key, Slot<P>>

  /** Error codes the server makes itself, and codes a browser reported. */
  datatype Code =
    | Cancelled | Timeout | Internal | InvalidMessage | Backpressure
    | BrowserNotFound | BrowserDisconnected | CapabilityUnavailable
    | BrowserCode(text: string)

  /** `success` and `error` may be missing on the wire. */
  datatype Message = Message(
    isResponse: bool,
    browserID: string,
    requestID: string,
    success: Option<bool>,
    result: string,
    error: Option<string>)

  datatype RequestResult = Response(message: Message) | Failure(code: Code)

  datatype Outcome = Result(json: string) | Error(code: Code)

  /** What `Send` returns for the result it received. */
  function Interpret(r: RequestResult): Outcome {
    match r
    case Failure(code) => Error(code)
    case Response(m) =>
      if m.success.None? then Error(InvalidMessage)
      else if m.success.value then Result(m.result)
      else if m.error.None? then Error(InvalidMessage)
      else Error(BrowserCode(m.error.value))
  }

  // ---------------------------------------------------------------------
  // Specification of the critical sections
  // ---------------------------------------------------------------------

  /** Browser, connection and request must all match. */
  predicate Matches<P>(pending: Pending<P>, browserID: string, connectionID: string, m: Message) {
    && m.isResponse && m.browserID == browserID && m.requestID != ""
    && Key(browserID, m.requestID) in pending
    && pending[Key(browserID, m.requestID)].connectionID == connectionID
  }

  function AfterResponse<P>(pending: Pending<P>, browserID: string, connectionID: string, m: Message): Pending<P> {
    if Matches(pending, browserID, connectionID, m) then pending - {Key(browserID, m.requestID)} else pending
  }

  /** The requests sent through one connection of one browser. */
  function SentThrough<P>(pending: Pending<P>, browserID: string, connectionID: string): set<Key> {
    set k | k in pending && k.browserID == browserID && pending[k].connectionID == connectionID
  }

  /** `removePending`: only the caller's own row. */
  function AfterWithdrawal<P(==)>(pending: Pending<P>, key: Key, owner: P): Pending<P> {
    if key in pending && pending[key].owner == owner then pending - {key} else pending
  }

  datatype Admission = Accepted | RouterClosed | Collision

  function Admit<P>(pending: Pending<P>, closed: bool, key: Key): Admission {
    if closed then RouterClosed else if key in pending then Collision else Accepted
  }

  // ---------------------------------------------------------------------
  // The router object
  // ---------------------------------------------------------------------

  class PendingRequest {
    const connectionID: string
    var result: Option<RequestResult>

    constructor (connectionID: string)
      ensures this.connectionID == connectionID && result == None
    {
      this.connectionID := connectionID;
      result := None;
    }

    /** `result <- r` on a channel of capacity one. */
    method Push(r: RequestResult)
      requires result.None?
      modifies this
      ensures result == Some(r)
    {
      result := Some(r);
    }
  }

  class Router {
    var pending: map<Key, PendingRequest>
    var closed: bool

    ghost function View(): Pending<PendingRequest>
      reads this`pending
    {
      map k | k in pending :: Slot(pending[k].connectionID, pending[k])
    }

    /** Rows are different requests, and none has a result yet: every delivery takes
        its row out first, so it finds the channel empty. */
    ghost predicate Valid()
      reads this, pending.Values
    {
      Distinct() && (closed ==> pending == map[])
    }

    ghost predicate Distinct()
      reads this`pending, pending.Values
    {
      && (forall k :: k in pending ==> pending[k].result.None?)
      && (forall j, k :: j in pending && k in pending && j != k ==> pending[j] != pending[k])
    }

    constructor ()
      ensures Valid() && View() == map[] && !closed
    {
      pending := map[];
      closed := false;
    }

    /** The critical section of `Send` that enters the request. */
    method Enter(key: Key, connectionID: string) returns (admission: Admission, request: PendingRequest)
      requires Valid()
      modifies this
      ensures Valid() && closed == old(closed)
      ensures fresh(request) && request.connectionID == connectionID && request.result == None
      ensures admission == Admit(old(View()), old(closed), key)
      ensures View() == if admission.Accepted? then old(View())[key := Slot(connectionID, request)] else old(View())
    {
      request := new PendingRequest(connectionID);
      if closed { return RouterClosed, request; }
      if key in pending { return Collision, request; }
      pending := pending[key := request];
      admission := Accepted;
    }

    /** Whether the message was delivered; if so, to the request it answers. */
    method HandleResponse(browserID: string, connectionID: string, m: Message) returns (delivered: bool)
      requires Valid()
      modifies this, pending.Values
      ensures Valid() && closed == old(closed)
      ensures delivered == Matches(old(View()), browserID, connectionID, m)
      ensures View() == AfterResponse(old(View()), browserID, connectionID, m)
      ensures forall k :: k in old(pending) ==>
        old(pending)[k].result == if delivered && k == Key(browserID, m.requestID) then Some(Response(m)) else None
    {
      if !m.isResponse || m.browserID != browserID || m.requestID == "" { return false; }
      var key := Key(browserID, m.requestID);
      if key !in pending || pending[key].connectionID != connectionID { return false; }
      var request := pending[key];
      pending := pending - {key};
      request.Push(Response(m));
      delivered := true;
    }

    /** Both bulk deliveries: take the rows out under the lock, then push to each. */
    method FailAll(keys: set<Key>, code: Code) returns (count: nat)
      requires Distinct() && keys <= pending.Keys
      modifies this`pending, pending.Values
      ensures Distinct() && pending == old(pending) - keys && count == |keys|
      ensures forall k :: k in old(pending) ==>
        old(pending)[k].result == if k in keys then Some(Failure(code)) else None
    {
      ghost var before := pending;
      var failed: map<Key, PendingRequest> := map k | k in keys :: pending[k];
      pending := pending - keys;
      var todo := keys;
      count := 0;
      while todo != {}
        invariant todo <= keys && count == |keys| - |todo| && pending == before - keys
        invariant forall k :: k in before ==>
          before[k].result == if k in keys && k !in todo then Some(Failure(code)) else None
        decreases todo
      {
        var k :| k in todo;
        todo := todo - {k};
        failed[k].Push(Failure(code));
        count := count + 1;
      }
    }

    method FailConnection(browserID: string, connectionID: string) returns (count: nat)
      requires Valid()
      modifies this`pending, pending.Values
      ensures Valid()
      ensures View() == old(View()) - SentThrough(old(View()), browserID, connectionID)
      ensures count == |SentThrough(old(View()), browserID, connectionID)|
      ensures forall k :: k in old(pending) ==>
        old(pending)[k].result ==
          (if k in SentThrough(old(View()), browserID, connectionID) then Some(Failure(BrowserDisconnected)) else None)
    {
      var keys := set k | k in pending && k.browserID == browserID && pending[k].connectionID == connectionID;
      assert keys == SentThrough(View(), browserID, connectionID);
      count := FailAll(keys, BrowserDisconnected);
    }

    /** A second `Close` finds nothing to do. */
    method Close() returns (count: nat)
      requires Valid()
      modifies this, pending.Values
      ensures Valid() && closed && pending == map[]
      ensures count == |old(pending)| && (old(closed) ==> count == 0)
      ensures forall k :: k in old(pending) ==> old(pending)[k].result == Some(Failure(Cancelled))
    {
      if closed { return 0; }
      closed := true;
      count := FailAll(pending.Keys, Cancelled);
      assert pending == map[];
    }

    method RemovePending(key: Key, expected: PendingRequest)
      requires Valid()
      modifies this`pending
      ensures Valid()
      ensures View() == AfterWithdrawal(old(View()), key, expected)
    {
      if key in pending && pending[key] == expected {
        pending := pending - {key};
      }
    }
  }
}
