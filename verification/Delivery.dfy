/** Request, cancellation and response between the server and its browsers, end to
    end: internal/router/router.go (`Send`), internal/registry/registry.go,
    chrome-extension/src/command-router.js and the reply path of
    chrome-extension/src/service-worker.js.

    Every action is one atomic step: a critical section, a channel operation, a
    write to a socket, or the code between two awaits.  Messages of a connection may
    be lost or overtaken; connections are replaced at any time; an extension sends
    its replies over whatever connection is then current. */
module Delivery {
  import opened Text
  import opened CommandRouter
  import R = Router
  import Registry

  type Conn = string

  datatype ToBrowser = Request(requestID: string) | Cancel(requestID: string)

  datatype Wire = Wire(conn: Conn, message: ToBrowser)

  datatype Reply = Reply(conn: Conn, message: R.Message)

  /** A result on its way to a `Send`, and the connection it came over. */
  datatype Arrival = Arrival(result: R.RequestResult, via: Conn)

  datatype Phase =
    | Started                     // past the first look at `closed`
    | Routed                      // has a connection
    | Entered                     // has a row in the table
    | Sent                        // the request was written; waits in `select`
    | WriteFailed                 // the request could not be written
    | TimedOut                    // the row was withdrawn; cancellation not yet sent
    | Returned(outcome: R.Outcome)

  /** One call of `Send`: `accepted` once it has entered a row, `withdrawn` when it took
      that row out itself; `inFlight` are results removed from the table but not yet
      pushed, `channel` the one-slot channel, `taken` what the call received. */
  datatype Send = Send(
    browserID: string,
    requestID: string,
    command: string,
    conn: Conn,
    phase: Phase,
    accepted: bool,
    withdrawn: bool,
    inFlight: seq<Arrival>,
    channel: seq<Arrival>,
    taken: seq<Arrival>)

  datatype Extension = Extension(socket: Option<Conn>, active: map<string, Execution>)

  /** `owner` is the browser a connection was authenticated for, `issued` the call that
      made a request id; `started` and `computed` record what extensions executed. */
  datatype World = World(
    browsers: Registry.Browsers,
    owner: map<Conn, string>,
    pending: R.Pending<nat>,
    closed: bool,
    sends: seq<Send>,
    issued: map<string, nat>,
    toBrowser: multiset<Wire>,
    toServer: multiset<Reply>,
    extensions: map<string, Extension>,
    started: set<R.Key>,
    computed: map<R.Key, CommandOutcome>)

  const NEW_WORLD := World(map[], map[], map[], false, [], map[], multiset{}, multiset{}, map[], {}, map[])

  function KeyOf(s: Send): R.Key {
    R.Key(s.browserID, s.requestID)
  }

  /** The response message of an outcome. */
  function ResponseFor(k: R.Key, o: CommandOutcome): R.Message {
    match o
    case Success(json) => R.Message(true, k.browserID, k.requestID, Some(true), json, None)
    case Failed(code) => R.Message(true, k.browserID, k.requestID, Some(false), "", Some(code))
  }

  function ExtensionOf(w: World, browserID: string): Extension {
    if browserID in w.extensions then w.extensions[browserID] else Extension(None, map[])
  }

  function WithExtension(w: World, browserID: string, e: Extension): World {
    w.(extensions := w.extensions[browserID := e])
  }

  function WithSend(w: World, i: nat, s: Send): World
    requires i < |w.sends|
  {
    w.(sends := w.sends[i := s])
  }

  /** Rows in `keys` leave the table, each with a failure on its way to its owner. */
  function Failing(w: World, keys: set<R.Key>, code: R.Code): World {
    w.(pending := w.pending - keys,
       sends := seq(|w.sends|, i requires 0 <= i < |w.sends| =>
         var s := w.sends[i];
         if KeyOf(s) in keys && KeyOf(s) in w.pending && w.pending[KeyOf(s)].owner == i
         then s.(inFlight := s.inFlight + [Arrival(R.Failure(code), "")])
         else s))
  }

  // ---------------------------------------------------------------------
  // Actions
  // ---------------------------------------------------------------------

  datatype Action =
    // the server's connections and registry
    | Connect(registration: Registry.Registration, conn: Conn, now: int)
    | UpdateRegistry(update: Registry.Action)
    | FailConnection(browserID: string, conn: Conn)
    | CloseRouter
    // one call of Send
    | StartSend(browserID: string, requestID: string, command: string)
    | RouteSend(i: nat)
    | EnterSend(i: nat)
    | WriteRequest(i: nat, ok: bool, onWire: bool)
    | GiveUp(i: nat, code: R.Code)
    | Receive(i: nat)
    | TimeOut(i: nat)
    | WriteCancel(i: nat, onWire: bool, code: R.Code)
    // delivery of results
    | TakeResponse(reply: Reply)
    | PushResult(i: nat)
    // the network
    | LoseWire(wire: Wire)
    | LoseReply(reply: Reply)
    // the extension
    | SwitchSocket(browserID: string, socket: Option<Conn>)
    | ReceiveRequest(conn: Conn, requestID: string)
    | ReceiveCancel(conn: Conn, requestID: string)
    | Finish(browserID: string, requestID: string, result: CommandOutcome)
    | Respond(browserID: string, requestID: string)
    | EndExecution(browserID: string, requestID: string)
    | RestartExtension(browserID: string)

  predicate IsRunning(w: World, browserID: string, requestID: string) {
    requestID in ExtensionOf(w, browserID).active && ExtensionOf(w, browserID).active[requestID].Running?
  }

  predicate IsSettled(w: World, browserID: string, requestID: string) {
    requestID in ExtensionOf(w, browserID).active && ExtensionOf(w, browserID).active[requestID].Settled?
  }

  /** Connection ids and request ids are never reused; everything else is the program
      counter of the code that acts. */
  predicate Enabled(w: World, a: Action) {
    match a
    case Connect(g, conn, _) => conn !in w.owner && Registry.Acceptable(g, conn)
    case UpdateRegistry(update) => !update.DoRegister?
    case StartSend(_, requestID, _) => requestID !in w.issued
    case RouteSend(i) => i < |w.sends| && w.sends[i].phase == Started
    case EnterSend(i) => i < |w.sends| && w.sends[i].phase == Routed
    case WriteRequest(i, _, _) => i < |w.sends| && w.sends[i].phase == Entered
    case GiveUp(i, code) => i < |w.sends| && w.sends[i].phase == WriteFailed && !code.BrowserCode?
    case Receive(i) => i < |w.sends| && w.sends[i].phase == Sent && w.sends[i].channel != []
    case TimeOut(i) => i < |w.sends| && w.sends[i].phase == Sent
    case WriteCancel(i, _, code) => i < |w.sends| && w.sends[i].phase == TimedOut && !code.BrowserCode?
    case TakeResponse(reply) => reply in w.toServer && reply.conn in w.owner
    case PushResult(i) => i < |w.sends| && w.sends[i].inFlight != []
    case LoseWire(wire) => wire in w.toBrowser
    case LoseReply(reply) => reply in w.toServer
    case SwitchSocket(browserID, socket) =>
      socket.Some? ==> socket.value in w.owner && w.owner[socket.value] == browserID
    case ReceiveRequest(conn, requestID) => Wire(conn, Request(requestID)) in w.toBrowser && conn in w.owner
    case ReceiveCancel(conn, requestID) => Wire(conn, Cancel(requestID)) in w.toBrowser && conn in w.owner
    case Finish(browserID, requestID, _) => IsRunning(w, browserID, requestID)
    case Respond(browserID, requestID) => IsSettled(w, browserID, requestID)
    case EndExecution(browserID, requestID) => !IsRunning(w, browserID, requestID)
    case _ => true
  }

  function RouteFailure(r: Registry.RouteResult): R.Code {
    if r.BrowserNotFound? then R.BrowserNotFound
    else if r.BrowserDisconnected? then R.BrowserDisconnected
    else R.CapabilityUnavailable
  }

  // --- one call of Send

  function StartedSend(w: World, browserID: string, requestID: string, command: string): World {
    var phase :=
      if browserID == "" then Returned(R.Error(R.BrowserNotFound))
      else if w.closed then Returned(R.Error(R.Cancelled))
      else Started;
    w.(sends := w.sends + [Send(browserID, requestID, command, "", phase, false, false, [], [], [])],
       issued := w.issued[requestID := |w.sends|])
  }

  function RoutedSend(w: World, i: nat): World
    requires i < |w.sends|
  {
    var s := w.sends[i];
    var route := Registry.Route(w.browsers, s.browserID, s.command);
    WithSend(w, i,
      if route.Granted? then s.(phase := Routed, conn := route.connectionID)
      else s.(phase := Returned(R.Error(RouteFailure(route)))))
  }

  function EnteredSend(w: World, i: nat): World
    requires i < |w.sends|
  {
    var s := w.sends[i];
    var admission := R.Admit(w.pending, w.closed, KeyOf(s));
    WithSend(w, i,
      match admission
      case Accepted => s.(phase := Entered, accepted := true)
      case RouterClosed => s.(phase := Returned(R.Error(R.Cancelled)))
      case Collision => s.(phase := Returned(R.Error(R.Internal))))
      .(pending := if admission.Accepted? then w.pending[KeyOf(s) := R.Slot(s.conn, i)] else w.pending)
  }

  /** A failed write may still have put the message on the wire. */
  function WrittenRequest(w: World, i: nat, ok: bool, onWire: bool): World
    requires i < |w.sends|
  {
    var s := w.sends[i];
    WithSend(w, i, s.(phase := if ok then Sent else WriteFailed))
      .(toBrowser := if onWire then w.toBrowser + multiset{Wire(s.conn, Request(s.requestID))} else w.toBrowser)
  }

  predicate HasRow(w: World, i: nat)
    requires i < |w.sends|
  {
    KeyOf(w.sends[i]) in w.pending && w.pending[KeyOf(w.sends[i])].owner == i
  }

  /** `removePending`, followed by `phase`. */
  function Withdrawn(w: World, i: nat, phase: Phase): World
    requires i < |w.sends|
  {
    var s := w.sends[i];
    WithSend(w, i, s.(phase := phase, withdrawn := HasRow(w, i)))
      .(pending := R.AfterWithdrawal(w.pending, KeyOf(s), i))
  }

  function Received(w: World, i: nat): World
    requires i < |w.sends| && w.sends[i].channel != []
  {
    var s := w.sends[i];
    WithSend(w, i, s.(channel := s.channel[1..], taken := s.taken + [s.channel[0]],
                      phase := Returned(R.Interpret(s.channel[0].result))))
  }

  function WrittenCancel(w: World, i: nat, onWire: bool, code: R.Code): World
    requires i < |w.sends|
  {
    var s := w.sends[i];
    WithSend(w, i, s.(phase := Returned(R.Error(code))))
      .(toBrowser := if onWire then w.toBrowser + multiset{Wire(s.conn, Cancel(s.requestID))} else w.toBrowser)
  }

  // --- delivery of results

  predicate RowsAreKnown(w: World) {
    forall k :: k in w.pending ==> w.pending[k].owner < |w.sends|
  }

  /** The read loop of one connection hands a message to `HandleResponse`. */
  function TakenResponse(w: World, reply: Reply): World
    requires reply.conn in w.owner && RowsAreKnown(w)
  {
    var browserID := w.owner[reply.conn];
    var k := R.Key(browserID, reply.message.requestID);
    w.(toServer := w.toServer - multiset{reply},
       pending := R.AfterResponse(w.pending, browserID, reply.conn, reply.message),
       sends :=
         if R.Matches(w.pending, browserID, reply.conn, reply.message)
         then var i := w.pending[k].owner;
              var s := w.sends[i];
              w.sends[i := s.(inFlight := s.inFlight + [Arrival(R.Response(reply.message), reply.conn)])]
         else w.sends)
  }

  function PushedResult(w: World, i: nat): World
    requires i < |w.sends| && w.sends[i].inFlight != []
  {
    var s := w.sends[i];
    WithSend(w, i, s.(inFlight := s.inFlight[1..], channel := s.channel + [s.inFlight[0]]))
  }

  // --- the extension

  function ReceivedRequest(w: World, conn: Conn, requestID: string): World
    requires conn in w.owner
  {
    var b := w.owner[conn];
    var e := ExtensionOf(w, b);
    var begin := requestID !in e.active;
    w.(toBrowser := w.toBrowser - multiset{Wire(conn, Request(requestID))},
       extensions :=
         if begin then w.extensions[b := e.(active := e.active[requestID := Running(false)])] else w.extensions,
       started := if begin then w.started + {R.Key(b, requestID)} else w.started)
  }

  function ReceivedCancel(w: World, conn: Conn, requestID: string): World
    requires conn in w.owner
  {
    var b := w.owner[conn];
    var e := ExtensionOf(w, b);
    w.(toBrowser := w.toBrowser - multiset{Wire(conn, Cancel(requestID))},
       extensions :=
         if IsRunning(w, b, requestID) then w.extensions[b := e.(active := e.active[requestID := Running(true)])]
         else w.extensions)
  }

  function Finished(w: World, browserID: string, requestID: string, result: CommandOutcome): World
    requires IsRunning(w, browserID, requestID)
  {
    var e := ExtensionOf(w, browserID);
    var o := Reported(e.active[requestID].aborted, result);
    WithExtension(w, browserID, e.(active := e.active[requestID := Settled(o)]))
      .(computed := w.computed[R.Key(browserID, requestID) := o])
  }

  /** `sendMessage` uses the socket that is current now. */
  function Responded(w: World, browserID: string, requestID: string): World
    requires IsSettled(w, browserID, requestID)
  {
    var e := ExtensionOf(w, browserID);
    var m := ResponseFor(R.Key(browserID, requestID), e.active[requestID].outcome);
    WithExtension(w, browserID, e.(active := e.active[requestID := Execution.Responded]))
      .(toServer := if e.socket.Some? then w.toServer + multiset{Reply(e.socket.value, m)} else w.toServer)
  }

  function Step(w: World, a: Action): World {
    if !RowsAreKnown(w) || !Enabled(w, a) then w
    else match a
      case Connect(g, conn, now) =>
        w.(browsers := Registry.Register(w.browsers, g, conn, now), owner := w.owner[conn := g.browserID])
      case UpdateRegistry(update) => w.(browsers := Registry.Step(w.browsers, update))
      case FailConnection(browserID, conn) =>
        Failing(w, R.SentThrough(w.pending, browserID, conn), R.BrowserDisconnected)
      case CloseRouter => 
        if w.closed then w else Failing(w, w.pending.Keys, R.Cancelled).(closed := true)
      case StartSend(browserID, requestID, command) => StartedSend(w, browserID, requestID, command)
      case RouteSend(i) => RoutedSend(w, i)
      case EnterSend(i) => EnteredSend(w, i)
      case WriteRequest(i, ok, onWire) => WrittenRequest(w, i, ok, ok || onWire)
      case GiveUp(i, code) => Withdrawn(w, i, Returned(R.Error(code)))
      case Receive(i) => Received(w, i)
      case TimeOut(i) => Withdrawn(w, i, TimedOut)
      case WriteCancel(i, onWire, code) => WrittenCancel(w, i, onWire, code)
      case TakeResponse(reply) => TakenResponse(w, reply)
      case PushResult(i) => PushedResult(w, i)
      case LoseWire(wire) => w.(toBrowser := w.toBrowser - multiset{wire})
      case LoseReply(reply) => w.(toServer := w.toServer - multiset{reply})
      case SwitchSocket(browserID, socket) =>
        WithExtension(w, browserID, ExtensionOf(w, browserID).(socket := socket))
      case ReceiveRequest(conn, requestID) => ReceivedRequest(w, conn, requestID)
      case ReceiveCancel(conn, requestID) => ReceivedCancel(w, conn, requestID)
      case Finish(browserID, requestID, result) => Finished(w, browserID, requestID, result)
      case Respond(browserID, requestID) => Responded(w, browserID, requestID)
      case EndExecution(browserID, requestID) =>
        var e := ExtensionOf(w, browserID);
        WithExtension(w, browserID, e.(active := e.active - {requestID}))
      case RestartExtension(browserID) => WithExtension(w, browserID, Extension(None, map[]))
  }

  function Run(actions: seq<Action>): World {
    if actions == [] then NEW_WORLD
    else Step(Run(actions[..|actions| - 1]), actions[|actions| - 1])
  }

  // ---------------------------------------------------------------------
  // Invariant
  // ---------------------------------------------------------------------

  function Results(s: Send): seq<Arrival> {
    s.inFlight + s.channel + s.taken
  }

  function One(b: bool): nat {
    if b then 1 else 0
  }

  /** Before the request is written, nobody has seen its id. */
  predicate Unwritten(phase: Phase) {
    phase == Started || phase == Routed || phase == Entered
  }

  /** An accepted request is in exactly one place: its row, withdrawn, on its way, in
      its channel, or received. */
  ghost predicate PlacesOk(w: World, i: nat)
    requires i < |w.sends|
  {
    var s := w.sends[i];
    && One(s.accepted) == One(HasRow(w, i)) + One(s.withdrawn) + |s.inFlight| + |s.channel| + |s.taken|
    && (s.phase == Started || s.phase == Routed ==> !s.accepted)
    && (s.phase == Entered || s.phase == Sent || s.phase == WriteFailed ==> s.accepted && !s.withdrawn && s.taken == [])
    && (s.phase == TimedOut ==> s.accepted && s.taken == [])
    && (s.phase == TimedOut || s.phase.Returned? ==> !HasRow(w, i))
    && (s.phase.Returned? ==>
          s.phase.outcome == (if s.taken == [] then s.phase.outcome else R.Interpret(s.taken[0].result)) &&
          (s.taken == [] ==> s.phase.outcome.Error? && !s.phase.outcome.code.BrowserCode?))
  }

  /** A response on its way to, or received by, call `s` is the outcome that was computed
      for its key, and came over its connection. */
  ghost predicate ArrivalOk(w: World, s: Send, a: Arrival) {
    match a.result
    case Failure(code) => !code.BrowserCode?
    case Response(m) => a.via == s.conn && KeyOf(s) in w.computed && m == ResponseFor(KeyOf(s), w.computed[KeyOf(s)])
  }

  ghost predicate SendOk(w: World, i: nat)
    requires i < |w.sends|
  {
    var s := w.sends[i];
    && PlacesOk(w, i)
    && (forall a :: a in Results(s) ==> ArrivalOk(w, s, a))
    && (HasRow(w, i) ==> w.pending[KeyOf(s)].connectionID == s.conn)
    && (s.accepted || s.phase == Routed ==> s.conn in w.owner && w.owner[s.conn] == s.browserID)
    && s.requestID in w.issued && w.issued[s.requestID] == i
    && (Unwritten(s.phase) ==> forall k :: k in w.started ==> k.requestID != s.requestID)
    && (Unwritten(s.phase) ==> forall wire :: wire in w.toBrowser && wire.message.Request? ==>
          wire.message.requestID != s.requestID)
  }

  /** A request on the wire is the only copy, goes the way its call chose, and has not
      been executed. */
  ghost predicate WireOk(w: World, wire: Wire) {
    wire.message.Request? ==>
      && wire.message.requestID in w.issued
      && w.issued[wire.message.requestID] < |w.sends|
      && w.sends[w.issued[wire.message.requestID]].conn == wire.conn
      && w.sends[w.issued[wire.message.requestID]].accepted
      && w.toBrowser[wire] == 1
      && forall k :: k in w.started ==> k.requestID != wire.message.requestID
  }

  ghost predicate RowOk(w: World, k: R.Key)
    requires k in w.pending
  {
    var i := w.pending[k].owner;
    i < |w.sends| && KeyOf(w.sends[i]) == k
  }

  /** What an extension is running it has started; its outcome is computed once. */
  ghost predicate ExtensionOk(w: World, b: string)
    requires b in w.extensions
  {
    && (w.extensions[b].socket.Some? ==>
          w.extensions[b].socket.value in w.owner && w.owner[w.extensions[b].socket.value] == b)
    && forall r :: r in w.extensions[b].active ==>
         && R.Key(b, r) in w.started
         && match w.extensions[b].active[r]
            case Running(_) => R.Key(b, r) !in w.computed
            case Settled(o) => R.Key(b, r) in w.computed && w.computed[R.Key(b, r)] == o
            case Responded => true
  }

  ghost predicate ReplyOk(w: World, reply: Reply) {
    var k := R.Key(reply.message.browserID, reply.message.requestID);
    k in w.computed && reply.message == ResponseFor(k, w.computed[k])
  }

  /** A started execution was asked for by the one call that issued its id. */
  ghost predicate StartedOk(w: World, k: R.Key) {
    && k.requestID in w.issued
    && w.issued[k.requestID] < |w.sends|
    && KeyOf(w.sends[w.issued[k.requestID]]) == k
  }

  ghost predicate SendsOk(w: World) {
    forall i :: 0 <= i < |w.sends| ==> SendOk(w, i)
  }

  ghost predicate RowsOk(w: World) {
    forall k :: k in w.pending ==> RowOk(w, k)
  }

  ghost predicate WiresOk(w: World) {
    forall wire :: wire in w.toBrowser ==> WireOk(w, wire)
  }

  ghost predicate ExtensionsOk(w: World) {
    && (forall b :: b in w.extensions ==> ExtensionOk(w, b))
    && (forall reply :: reply in w.toServer ==> ReplyOk(w, reply))
    && (forall k :: k in w.computed ==> k in w.started)
  }

  ghost predicate IdsOk(w: World) {
    && (forall k :: k in w.started ==> StartedOk(w, k))
    && (forall r :: r in w.issued ==> w.issued[r] < |w.sends| && w.sends[w.issued[r]].requestID == r)
  }

  ghost predicate RegistryOk(w: World) {
    && Registry.Consistent(w.browsers)
    && forall id :: id in w.browsers && w.browsers[id].browser.connected ==>
         w.browsers[id].browser.connectionID in w.owner && w.owner[w.browsers[id].browser.connectionID] == id
  }

  ghost predicate Inv(w: World) {
    && SendsOk(w) && RowsOk(w) && WiresOk(w) && ExtensionsOk(w) && IdsOk(w) && RegistryOk(w)
    && (w.closed ==> w.pending == map[])
  }

  // ---------------------------------------------------------------------
  // What a step leaves alone
  // ---------------------------------------------------------------------

  /** Facts about connections, ids and outcomes are never taken back. */
  ghost predicate Grows(w: World, x: World) {
    && (forall c :: c in w.owner ==> c in x.owner && x.owner[c] == w.owner[c])
    && (forall r :: r in w.issued ==> r in x.issued && x.issued[r] == w.issued[r])
    && (forall k :: k in w.computed ==> k in x.computed && x.computed[k] == w.computed[k])
    && w.started <= x.started
  }

  /** No execution starts and no request is written under this id. */
  ghost predicate QuietFor(w: World, x: World, requestID: string) {
    && (forall k :: k in x.started && k.requestID == requestID ==> k in w.started)
    && (forall wire :: wire in x.toBrowser && wire.message == Request(requestID) ==> wire in w.toBrowser)
  }

  /** Calls keep their request, and their connection once accepted. */
  ghost predicate Keeps(w: World, x: World) {
    && |w.sends| <= |x.sends|
    && (forall j :: 0 <= j < |w.sends| ==> KeyOf(x.sends[j]) == KeyOf(w.sends[j]))
    && (forall j :: 0 <= j < |w.sends| && w.sends[j].accepted ==>
          x.sends[j].accepted && x.sends[j].conn == w.sends[j].conn)
    && (forall r :: r in w.issued ==> r in x.issued && x.issued[r] == w.issued[r])
  }

  lemma KeepsIds(w: World, x: World)
    requires IdsOk(w) && Keeps(w, x) && x.started == w.started
    requires forall r :: r in x.issued && r !in w.issued ==>
      x.issued[r] < |x.sends| && x.sends[x.issued[r]].requestID == r
    ensures IdsOk(x)
  {
    forall k | k in x.started
      ensures StartedOk(x, k)
    {
      assert StartedOk(w, k);
    }
  }

  lemma KeepsRows(w: World, x: World)
    requires RowsOk(w) && Keeps(w, x)
    requires forall k :: k in x.pending ==> (k in w.pending && x.pending[k] == w.pending[k]) || RowOk(x, k)
    ensures RowsOk(x)
  {
    forall k | k in x.pending
      ensures RowOk(x, k)
    {
      assert k in w.pending ==> RowOk(w, k);
    }
  }

  lemma KeepsWires(w: World, x: World)
    requires WiresOk(w) && Keeps(w, x) && x.started == w.started
    requires forall wire :: wire in x.toBrowser && wire.message.Request? ==> x.toBrowser[wire] == w.toBrowser[wire]
    ensures WiresOk(x)
  {
    forall wire | wire in x.toBrowser
      ensures WireOk(x, wire)
    {
      if wire.message.Request? { assert WireOk(w, wire); }
    }
  }

  lemma KeepsExtensions(w: World, x: World)
    requires ExtensionsOk(w) && Grows(w, x)
    requires x.extensions == w.extensions && x.computed == w.computed
    requires forall reply :: reply in x.toServer ==> reply in w.toServer
    ensures ExtensionsOk(x)
  {
    forall b | b in x.extensions
      ensures ExtensionOk(x, b)
    {
      assert ExtensionOk(w, b);
    }
    forall reply | reply in x.toServer
      ensures ReplyOk(x, reply)
    {
      assert ReplyOk(w, reply);
    }
  }

  lemma UntouchedSend(w: World, x: World, j: nat)
    requires j < |w.sends| && j < |x.sends| && SendOk(w, j) && x.sends[j] == w.sends[j] && Grows(w, x)
    requires HasRow(x, j) == HasRow(w, j)
    requires HasRow(w, j) ==> x.pending[KeyOf(w.sends[j])] == w.pending[KeyOf(w.sends[j])]
    requires Unwritten(w.sends[j].phase) ==> QuietFor(w, x, w.sends[j].requestID)
    ensures SendOk(x, j)
  {
    forall a | a in Results(x.sends[j])
      ensures ArrivalOk(x, x.sends[j], a)
    {
      assert ArrivalOk(w, w.sends[j], a);
    }
  }

  /** Two calls never share a row. */
  lemma RowsAreApart(w: World, i: nat, j: nat)
    requires i < |w.sends| && j < |w.sends| && i != j && SendOk(w, i) && SendOk(w, j)
    ensures KeyOf(w.sends[i]) != KeyOf(w.sends[j])
  {
  }

  /** A step on one existing call. */
  ghost predicate OneCall(w: World, x: World, i: nat) {
    && i < |w.sends| && |x.sends| == |w.sends|
    && KeyOf(x.sends[i]) == KeyOf(w.sends[i])
    && (w.sends[i].accepted ==> x.sends[i].accepted && x.sends[i].conn == w.sends[i].conn)
    && (forall j :: 0 <= j < |w.sends| && j != i ==> x.sends[j] == w.sends[j])
    && (forall k :: k != KeyOf(w.sends[i]) ==>
          (k in x.pending <==> k in w.pending) && (k in w.pending ==> x.pending[k] == w.pending[k]))
    && x.browsers == w.browsers && x.owner == w.owner && x.issued == w.issued
    && x.extensions == w.extensions && x.started == w.started && x.computed == w.computed
  }

  lemma OneCallKeepsSends(w: World, x: World, i: nat)
    requires SendsOk(w) && OneCall(w, x, i) && SendOk(x, i)
    requires forall wire :: wire in x.toBrowser && wire.message.Request? ==>
      wire in w.toBrowser || wire.message.requestID == w.sends[i].requestID
    ensures SendsOk(x)
  {
    forall j | 0 <= j < |x.sends|
      ensures SendOk(x, j)
    {
      if j != i {
        assert SendOk(w, i) && SendOk(w, j);
        RowsAreApart(w, i, j);
        UntouchedSend(w, x, j);
      }
    }
  }

  /** The rest of the invariant follows. */
  lemma OneCallKeepsTables(w: World, x: World, i: nat)
    requires RowsOk(w) && ExtensionsOk(w) && IdsOk(w) && RegistryOk(w) && OneCall(w, x, i)
    requires KeyOf(w.sends[i]) in x.pending ==> RowOk(x, KeyOf(w.sends[i]))
    requires forall reply :: reply in x.toServer ==> reply in w.toServer
    ensures Keeps(w, x) && RowsOk(x) && ExtensionsOk(x) && IdsOk(x) && RegistryOk(x)
  {
    KeepsIds(w, x);
    KeepsRows(w, x);
    KeepsExtensions(w, x);
  }

  /** The common case: nothing is sent to a browser, except perhaps a cancellation. */
  lemma OneCallKeepsInv(w: World, x: World, i: nat)
    requires Inv(w) && OneCall(w, x, i) && SendOk(x, i)
    requires KeyOf(w.sends[i]) in x.pending ==> RowOk(x, KeyOf(w.sends[i]))
    requires forall wire: Wire :: wire.message.Request? ==> x.toBrowser[wire] == w.toBrowser[wire]
    requires forall reply :: reply in x.toServer ==> reply in w.toServer
    requires x.closed ==> x.pending == map[]
    ensures Inv(x)
  {
    assert forall wire :: wire in x.toBrowser && wire.message.Request? ==> wire in w.toBrowser;
    OneCallKeepsSends(w, x, i);
    OneCallKeepsTables(w, x, i);
    KeepsWires(w, x);
  }

  // ---------------------------------------------------------------------
  // Steps of one call
  // ---------------------------------------------------------------------

  /** The call that moves: what does not follow from its own bookkeeping carries over. */
  lemma MovedSend(w: World, x: World, i: nat)
    requires OneCall(w, x, i) && SendOk(w, i) && PlacesOk(x, i)
    requires Results(x.sends[i]) == Results(w.sends[i])
    requires Results(w.sends[i]) == [] || x.sends[i].conn == w.sends[i].conn
    requires HasRow(x, i) ==> x.pending[KeyOf(x.sends[i])].connectionID == x.sends[i].conn
    requires x.sends[i].accepted || x.sends[i].phase == Routed ==>
      x.sends[i].conn in x.owner && x.owner[x.sends[i].conn] == x.sends[i].browserID
    requires Unwritten(x.sends[i].phase) ==> Unwritten(w.sends[i].phase) && x.toBrowser == w.toBrowser
    ensures SendOk(x, i)
  {
    forall a | a in Results(x.sends[i])
      ensures ArrivalOk(x, x.sends[i], a)
    {
      assert ArrivalOk(w, w.sends[i], a);
    }
  }

  /** All of the above in one: for calls that touch no row but their own. */
  lemma MoveKeepsInv(w: World, x: World, i: nat)
    requires Inv(w) && OneCall(w, x, i) && PlacesOk(x, i)
    requires Results(x.sends[i]) == Results(w.sends[i])
    requires Results(w.sends[i]) == [] || x.sends[i].conn == w.sends[i].conn
    requires HasRow(x, i) ==> x.pending[KeyOf(x.sends[i])].connectionID == x.sends[i].conn
    requires x.sends[i].accepted || x.sends[i].phase == Routed ==>
      x.sends[i].conn in x.owner && x.owner[x.sends[i].conn] == x.sends[i].browserID
    requires Unwritten(x.sends[i].phase) ==> Unwritten(w.sends[i].phase) && x.toBrowser == w.toBrowser
    requires KeyOf(w.sends[i]) in x.pending ==>
      x.pending[KeyOf(w.sends[i])].owner == i || x.pending == w.pending
    requires forall wire: Wire :: wire.message.Request? ==> x.toBrowser[wire] == w.toBrowser[wire]
    requires x.toServer == w.toServer
    requires x.closed ==> x.pending == map[]
    ensures Inv(x)
  {
    assert SendOk(w, i);
    MovedSend(w, x, i);
    var k := KeyOf(w.sends[i]);
    if k in x.pending && x.pending[k].owner != i {
      assert RowOk(w, k);
    }
    OneCallKeepsInv(w, x, i);
  }

  /** A call that only changes its phase (and its connection, before it has a row). */
  lemma PhaseKeepsInv(w: World, i: nat, phase: Phase, conn: Conn)
    requires Inv(w) && i < |w.sends| && !w.sends[i].accepted
    requires w.sends[i].phase == Started || w.sends[i].phase == Routed
    requires phase == Routed || (phase.Returned? && phase.outcome.Error? && !phase.outcome.code.BrowserCode?)
    requires phase == Routed ==> conn in w.owner && w.owner[conn] == w.sends[i].browserID
    ensures Inv(WithSend(w, i, w.sends[i].(phase := phase, conn := conn)))
  {
    assert SendOk(w, i);
    var x := WithSend(w, i, w.sends[i].(phase := phase, conn := conn));
    assert HasRow(x, i) == HasRow(w, i) == false;
    assert Results(w.sends[i]) == [] == Results(x.sends[i]);
    MoveKeepsInv(w, x, i);
  }

  lemma RouteKeepsInv(w: World, i: nat)
    requires Inv(w) && i < |w.sends| && w.sends[i].phase == Started
    ensures Inv(RoutedSend(w, i))
  {
    var s := w.sends[i];
    assert !s.accepted by { assert SendOk(w, i); }
    match Registry.Route(w.browsers, s.browserID, s.command)
    case Granted(conn) =>
      assert Registry.EntryOk(s.browserID, w.browsers[s.browserID]);
      PhaseKeepsInv(w, i, Routed, conn);
    case failure =>
      PhaseKeepsInv(w, i, Returned(R.Error(RouteFailure(failure))), s.conn);
  }

  lemma AcceptKeepsInv(w: World, i: nat)
    requires Inv(w) && i < |w.sends| && w.sends[i].phase == Routed
    requires R.Admit(w.pending, w.closed, KeyOf(w.sends[i])).Accepted?
    ensures Inv(EnteredSend(w, i))
  {
    assert SendOk(w, i);
    var x := EnteredSend(w, i);
    assert !HasRow(w, i) && HasRow(x, i);
    assert Results(w.sends[i]) == [] == Results(x.sends[i]);
    MoveKeepsInv(w, x, i);
  }

  lemma EnterKeepsInv(w: World, i: nat)
    requires Inv(w) && i < |w.sends| && w.sends[i].phase == Routed
    ensures Inv(EnteredSend(w, i))
  {
    var s := w.sends[i];
    assert !s.accepted by { assert SendOk(w, i); }
    match R.Admit(w.pending, w.closed, KeyOf(s))
    case Accepted => AcceptKeepsInv(w, i);
    case RouterClosed => PhaseKeepsInv(w, i, Returned(R.Error(R.Cancelled)), s.conn);
    case Collision => PhaseKeepsInv(w, i, Returned(R.Error(R.Internal)), s.conn);
  }

  lemma WithdrawKeepsInv(w: World, i: nat, phase: Phase)
    requires Inv(w) && i < |w.sends|
    requires (w.sends[i].phase == WriteFailed && phase.Returned?) || (w.sends[i].phase == Sent && phase == TimedOut)
    requires phase.Returned? ==> phase.outcome.Error? && !phase.outcome.code.BrowserCode?
    ensures Inv(Withdrawn(w, i, phase))
  {
    assert SendOk(w, i);
    var x := Withdrawn(w, i, phase);
    assert !HasRow(x, i);
    MoveKeepsInv(w, x, i);
  }

  lemma ReceiveKeepsInv(w: World, i: nat)
    requires Inv(w) && i < |w.sends| && w.sends[i].phase == Sent && w.sends[i].channel != []
    ensures Inv(Received(w, i))
  {
    assert SendOk(w, i);
    var x := Received(w, i);
    assert HasRow(x, i) == HasRow(w, i);
    assert Results(x.sends[i]) == Results(w.sends[i]);
    MoveKeepsInv(w, x, i);
  }

  lemma WriteCancelKeepsInv(w: World, i: nat, onWire: bool, code: R.Code)
    requires Inv(w) && i < |w.sends| && w.sends[i].phase == TimedOut && !code.BrowserCode?
    ensures Inv(WrittenCancel(w, i, onWire, code))
  {
    assert SendOk(w, i);
    var x := WrittenCancel(w, i, onWire, code);
    assert HasRow(x, i) == HasRow(w, i);
    MoveKeepsInv(w, x, i);
  }

  lemma PushKeepsInv(w: World, i: nat)
    requires Inv(w) && i < |w.sends| && w.sends[i].inFlight != []
    ensures Inv(PushedResult(w, i))
  {
    assert SendOk(w, i);
    var x := PushedResult(w, i);
    assert HasRow(x, i) == HasRow(w, i);
    assert w.sends[i].channel == [] && w.sends[i].taken == [];
    assert Results(x.sends[i]) == Results(w.sends[i]);
    MoveKeepsInv(w, x, i);
  }

  /** A response that matches a row finds its call waiting with nothing on the way. */
  lemma ArrivalKeepsSend(w: World, reply: Reply, i: nat)
    requires i < |w.sends| && SendOk(w, i) && HasRow(w, i) && ReplyOk(w, reply)
    requires reply.conn == w.sends[i].conn && reply.message.browserID == w.sends[i].browserID
    requires reply.message.requestID == w.sends[i].requestID
    ensures var s := w.sends[i];
      SendOk(WithSend(w, i, s.(inFlight := s.inFlight + [Arrival(R.Response(reply.message), reply.conn)]))
               .(pending := w.pending - {KeyOf(s)}, toServer := w.toServer - multiset{reply}), i)
  {
    var s := w.sends[i];
    assert s.inFlight == [] && s.channel == [] && s.taken == [];
    var x := WithSend(w, i, s.(inFlight := s.inFlight + [Arrival(R.Response(reply.message), reply.conn)]))
               .(pending := w.pending - {KeyOf(s)}, toServer := w.toServer - multiset{reply});
    assert !HasRow(x, i);
    assert Results(x.sends[i]) == [Arrival(R.Response(reply.message), reply.conn)];
  }

  lemma TakeResponseKeepsInv(w: World, reply: Reply)
    requires Inv(w) && reply in w.toServer && reply.conn in w.owner && RowsAreKnown(w)
    requires R.Matches(w.pending, w.owner[reply.conn], reply.conn, reply.message)
    ensures Inv(TakenResponse(w, reply))
  {
    var k := R.Key(w.owner[reply.conn], reply.message.requestID);
    var i := w.pending[k].owner;
    assert RowOk(w, k) && ReplyOk(w, reply) && SendOk(w, i);
    ArrivalKeepsSend(w, reply, i);
    OneCallKeepsInv(w, TakenResponse(w, reply), i);
  }

  /** The request goes out: the first and only message with this id. */
  lemma WriteKeepsWires(w: World, i: nat, ok: bool, onWire: bool)
    requires WiresOk(w) && i < |w.sends| && SendOk(w, i) && w.sends[i].phase == Entered
    requires Keeps(w, WrittenRequest(w, i, ok, onWire))
    ensures WiresOk(WrittenRequest(w, i, ok, onWire))
  {
    var x := WrittenRequest(w, i, ok, onWire);
    forall wire | wire in x.toBrowser
      ensures WireOk(x, wire)
    {
      if wire.message.Request? {
        if wire.message.requestID == w.sends[i].requestID {
          assert wire !in w.toBrowser;
        } else {
          assert WireOk(w, wire);
        }
      }
    }
  }

  lemma WriteKeepsInv(w: World, i: nat, ok: bool, onWire: bool)
    requires Inv(w) && i < |w.sends| && w.sends[i].phase == Entered
    ensures Inv(WrittenRequest(w, i, ok, onWire))
  {
    assert SendOk(w, i);
    var x := WrittenRequest(w, i, ok, onWire);
    assert HasRow(x, i) == HasRow(w, i);
    MovedSend(w, x, i);
    assert KeyOf(w.sends[i]) in w.pending ==> RowOk(w, KeyOf(w.sends[i]));
    OneCallKeepsSends(w, x, i);
    OneCallKeepsTables(w, x, i);
    WriteKeepsWires(w, i, ok, onWire);
  }

  /** A new call: nobody has seen its id. */
  lemma NewSend(w: World, browserID: string, requestID: string, command: string)
    requires Inv(w) && requestID !in w.issued
    ensures SendOk(StartedSend(w, browserID, requestID, command), |w.sends|)
  {
    var x := StartedSend(w, browserID, requestID, command);
    var n := |w.sends|;
    assert KeyOf(x.sends[n]) in w.pending ==> RowOk(w, KeyOf(x.sends[n]));
    assert !HasRow(x, n);
    forall k | k in x.started
      ensures k.requestID != requestID
    {
      assert StartedOk(w, k);
    }
    forall wire | wire in x.toBrowser && wire.message.Request?
      ensures wire.message.requestID != requestID
    {
      assert WireOk(w, wire);
    }
  }

  lemma StartKeepsSends(w: World, browserID: string, requestID: string, command: string)
    requires Inv(w) && requestID !in w.issued
    ensures SendsOk(StartedSend(w, browserID, requestID, command))
  {
    var x := StartedSend(w, browserID, requestID, command);
    NewSend(w, browserID, requestID, command);
    forall j | 0 <= j < |w.sends|
      ensures SendOk(x, j)
    {
      assert SendOk(w, j);
      UntouchedSend(w, x, j);
    }
  }

  lemma StartKeepsInv(w: World, browserID: string, requestID: string, command: string)
    requires Inv(w) && requestID !in w.issued
    ensures Inv(StartedSend(w, browserID, requestID, command))
  {
    var x := StartedSend(w, browserID, requestID, command);
    StartKeepsSends(w, browserID, requestID, command);
    KeepsRows(w, x);
    KeepsIds(w, x);
    KeepsExtensions(w, x);
    KeepsWires(w, x);
  }

  // ---------------------------------------------------------------------
  // Steps that fail several calls
  // ---------------------------------------------------------------------

  lemma FailingKeepsSend(w: World, keys: set<R.Key>, code: R.Code, j: nat)
    requires j < |w.sends| && SendOk(w, j) && !code.BrowserCode?
    ensures SendOk(Failing(w, keys, code), j)
  {
    var x := Failing(w, keys, code);
    var s := w.sends[j];
    if HasRow(w, j) && KeyOf(s) in keys {
      assert s.inFlight == [] && s.channel == [] && s.taken == [];
      assert !HasRow(x, j);
      assert Results(x.sends[j]) == [Arrival(R.Failure(code), "")];
    } else {
      assert HasRow(x, j) == HasRow(w, j);
      UntouchedSend(w, x, j);
    }
  }

  lemma FailingKeepsInv(w: World, keys: set<R.Key>, code: R.Code)
    requires Inv(w) && !code.BrowserCode?
    ensures Inv(Failing(w, keys, code))
  {
    var x := Failing(w, keys, code);
    forall j | 0 <= j < |x.sends|
      ensures SendOk(x, j)
    {
      FailingKeepsSend(w, keys, code, j);
    }
    KeepsRows(w, x);
    KeepsIds(w, x);
    KeepsExtensions(w, x);
    KeepsWires(w, x);
  }

  // ---------------------------------------------------------------------
  // Steps beside the calls
  // ---------------------------------------------------------------------

  /** Calls, table and started executions stay; nothing new is sent to a browser. */
  ghost predicate Beside(w: World, x: World) {
    && x.sends == w.sends && x.pending == w.pending && x.issued == w.issued && x.started == w.started
    && Grows(w, x)
    && forall wire :: wire in x.toBrowser ==> 0 < x.toBrowser[wire] <= w.toBrowser[wire]
  }

  lemma BesideKeepsSends(w: World, x: World)
    requires SendsOk(w) && Beside(w, x)
    ensures SendsOk(x)
  {
    forall j | 0 <= j < |x.sends|
      ensures SendOk(x, j)
    {
      assert SendOk(w, j);
      UntouchedSend(w, x, j);
    }
  }

  lemma BesideKeepsInv(w: World, x: World)
    requires Inv(w) && Beside(w, x) && ExtensionsOk(x) && RegistryOk(x)
    requires x.closed ==> x.pending == map[]
    ensures Inv(x)
  {
    BesideKeepsSends(w, x);
    KeepsRows(w, x);
    KeepsIds(w, x);
    forall wire | wire in x.toBrowser && wire.message.Request?
      ensures x.toBrowser[wire] == w.toBrowser[wire]
    {
      assert WireOk(w, wire);
    }
    KeepsWires(w, x);
  }

  lemma ClosingKeepsInv(w: World)
    requires Inv(w) && w.pending == map[]
    ensures Inv(w.(closed := true))
  {
    KeepsExtensions(w, w.(closed := true));
    BesideKeepsInv(w, w.(closed := true));
  }

  lemma RegistryKeepsInv(w: World, update: Registry.Action)
    requires Inv(w) && !update.DoRegister?
    ensures Inv(w.(browsers := Registry.Step(w.browsers, update)))
  {
    var x := w.(browsers := Registry.Step(w.browsers, update));
    Registry.StepIsConsistent(w.browsers, update);
    forall id | id in x.browsers && x.browsers[id].browser.connected
      ensures x.browsers[id].browser.connectionID in w.owner && w.owner[x.browsers[id].browser.connectionID] == id
    {
      Registry.StepKeepsOwner(w.browsers, update, id);
    }
    KeepsExtensions(w, x);
    BesideKeepsInv(w, x);
  }

  lemma ConnectKeepsInv(w: World, g: Registry.Registration, conn: Conn, now: int)
    requires Inv(w) && conn !in w.owner
    ensures Inv(w.(browsers := Registry.Register(w.browsers, g, conn, now), owner := w.owner[conn := g.browserID]))
  {
    var x := w.(browsers := Registry.Register(w.browsers, g, conn, now), owner := w.owner[conn := g.browserID]);
    Registry.StepIsConsistent(w.browsers, Registry.DoRegister(g, conn, now));
    KeepsExtensions(w, x);
    BesideKeepsInv(w, x);
  }

  // --- the extension

  /** One extension changed, perhaps with an outcome computed or a reply sent. */
  lemma ExtensionStepKeepsInv(w: World, x: World, b: string)
    requires Inv(w) && Beside(w, x) && b in x.extensions && ExtensionOk(x, b)
    requires forall c :: c != b && c in x.extensions ==> c in w.extensions && x.extensions[c] == w.extensions[c]
    requires forall k :: k in x.computed && k !in w.computed ==> k in w.started && k.browserID == b
    requires forall reply :: reply in x.toServer ==> reply in w.toServer || ReplyOk(x, reply)
    requires x.browsers == w.browsers && x.owner == w.owner && x.closed == w.closed
    ensures Inv(x)
  {
    forall c | c in x.extensions
      ensures ExtensionOk(x, c)
    {
      if c != b { assert ExtensionOk(w, c); }
    }
    forall reply | reply in x.toServer
      ensures ReplyOk(x, reply)
    {
      if reply in w.toServer { assert ReplyOk(w, reply); }
    }
    BesideKeepsInv(w, x);
  }

  /** Runs of an extension taken out, or aborted; its socket changed. */
  lemma QuietExtensionKeepsInv(w: World, b: string, e: Extension)
    requires Inv(w)
    requires e.socket.Some? ==> e.socket.value in w.owner && w.owner[e.socket.value] == b
    requires e.active.Keys <= ExtensionOf(w, b).active.Keys
    requires forall r :: r in e.active ==>
      e.active[r] == ExtensionOf(w, b).active[r] || (e.active[r].Running? && ExtensionOf(w, b).active[r].Running?)
    ensures Inv(WithExtension(w, b, e))
  {
    assert b in w.extensions ==> ExtensionOk(w, b);
    ExtensionStepKeepsInv(w, WithExtension(w, b, e), b);
  }

  lemma LoseWireKeepsInv(w: World, wire: Wire)
    requires Inv(w)
    ensures Inv(w.(toBrowser := w.toBrowser - multiset{wire}))
  {
    var x := w.(toBrowser := w.toBrowser - multiset{wire});
    KeepsExtensions(w, x);
    BesideKeepsInv(w, x);
  }

  lemma LoseReplyKeepsInv(w: World, reply: Reply)
    requires Inv(w)
    ensures Inv(w.(toServer := w.toServer - multiset{reply}))
  {
    var x := w.(toServer := w.toServer - multiset{reply});
    KeepsExtensions(w, x);
    BesideKeepsInv(w, x);
  }

  lemma FinishedIsOk(w: World, b: string, r: string, result: CommandOutcome)
    requires IsRunning(w, b, r) && ExtensionOk(w, b)
    ensures ExtensionOk(Finished(w, b, r, result), b) && R.Key(b, r) in w.started
    ensures Beside(w, Finished(w, b, r, result))
  {
    assert R.Key(b, r) !in w.computed;
  }

  lemma FinishKeepsInv(w: World, b: string, r: string, result: CommandOutcome)
    requires Inv(w) && IsRunning(w, b, r)
    ensures Inv(Finished(w, b, r, result))
  {
    assert ExtensionOk(w, b);
    FinishedIsOk(w, b, r, result);
    hide Inv, Finished, ExtensionOk, Beside, ReplyOk;
    ExtensionStepKeepsInv(w, Finished(w, b, r, result), b);
  }

  lemma RespondedIsOk(w: World, b: string, r: string)
    requires IsSettled(w, b, r) && ExtensionOk(w, b)
    ensures ExtensionOk(Responded(w, b, r), b) && Beside(w, Responded(w, b, r))
    ensures forall reply :: reply in Responded(w, b, r).toServer && reply !in w.toServer ==>
      ReplyOk(Responded(w, b, r), reply)
  {
  }

  lemma RespondKeepsInv(w: World, b: string, r: string)
    requires Inv(w) && IsSettled(w, b, r)
    ensures Inv(Responded(w, b, r))
  {
    assert ExtensionOk(w, b);
    RespondedIsOk(w, b, r);
    hide Inv, Responded, ExtensionOk, Beside, ReplyOk;
    ExtensionStepKeepsInv(w, Responded(w, b, r), b);
  }

  /** The request just taken off the wire was the only one with its id, and came over
      the connection of the call that issued it. */
  lemma RequestIsItsCalls(w: World, conn: Conn, r: string)
    requires Inv(w) && Wire(conn, Request(r)) in w.toBrowser && conn in w.owner
    ensures StartedOk(w, R.Key(w.owner[conn], r)) && R.Key(w.owner[conn], r) !in w.started
    ensures forall wire :: wire in w.toBrowser && wire.message == Request(r) ==> wire == Wire(conn, Request(r))
    ensures w.toBrowser[Wire(conn, Request(r))] == 1
    ensures !Unwritten(w.sends[w.issued[r]].phase)
  {
    assert WireOk(w, Wire(conn, Request(r)));
    assert SendOk(w, w.issued[r]);
    forall wire | wire in w.toBrowser && wire.message == Request(r)
      ensures wire == Wire(conn, Request(r))
    {
      assert WireOk(w, wire);
    }
  }

  /** An execution starts whose request is no longer on the wire. */
  lemma ExecutionKeepsInv(w: World, b: string, r: string)
    requires Inv(w) && StartedOk(w, R.Key(b, r)) && R.Key(b, r) !in w.started
    requires !Unwritten(w.sends[w.issued[r]].phase)
    requires forall wire :: wire in w.toBrowser ==> wire.message != Request(r)
    ensures var e := ExtensionOf(w, b);
      Inv(WithExtension(w, b, e.(active := e.active[r := Running(false)])).(started := w.started + {R.Key(b, r)}))
  {
    var e := ExtensionOf(w, b);
    var x := WithExtension(w, b, e.(active := e.active[r := Running(false)])).(started := w.started + {R.Key(b, r)});
    forall j | 0 <= j < |x.sends|
      ensures SendOk(x, j)
    {
      assert SendOk(w, j);
      UntouchedSend(w, x, j);
    }
    forall k | k in x.started
      ensures StartedOk(x, k)
    {
      assert k != R.Key(b, r) ==> StartedOk(w, k);
    }
    forall wire | wire in x.toBrowser
      ensures WireOk(x, wire)
    {
      assert WireOk(w, wire);
    }
    KeepsRows(w, x);
    ExecutionKeepsExtensions(w, x, b, r);
  }

  lemma ExecutionKeepsExtensions(w: World, x: World, b: string, r: string)
    requires ExtensionsOk(w) && R.Key(b, r) !in w.started
    requires var e := ExtensionOf(w, b);
      x == WithExtension(w, b, e.(active := e.active[r := Running(false)])).(started := w.started + {R.Key(b, r)})
    ensures ExtensionsOk(x)
  {
    forall c | c in x.extensions
      ensures ExtensionOk(x, c)
    {
      assert c in w.extensions ==> ExtensionOk(w, c);
    }
    forall reply | reply in x.toServer
      ensures ReplyOk(x, reply)
    {
      assert ReplyOk(w, reply);
    }
  }

  lemma ReceiveRequestKeepsInv(w: World, conn: Conn, r: string)
    requires Inv(w) && Wire(conn, Request(r)) in w.toBrowser && conn in w.owner
    ensures Inv(ReceivedRequest(w, conn, r))
  {
    RequestIsItsCalls(w, conn, r);
    LoseWireKeepsInv(w, Wire(conn, Request(r)));
    if r !in ExtensionOf(w, w.owner[conn]).active {
      ExecutionKeepsInv(w.(toBrowser := w.toBrowser - multiset{Wire(conn, Request(r))}), w.owner[conn], r);
    }
  }

  lemma ReceiveCancelKeepsInv(w: World, conn: Conn, r: string)
    requires Inv(w) && conn in w.owner
    ensures Inv(ReceivedCancel(w, conn, r))
  {
    var b := w.owner[conn];
    var y := w.(toBrowser := w.toBrowser - multiset{Wire(conn, Cancel(r))});
    LoseWireKeepsInv(w, Wire(conn, Cancel(r)));
    if IsRunning(w, b, r) {
      assert ExtensionOk(w, b);
      var e := ExtensionOf(w, b);
      QuietExtensionKeepsInv(y, b, e.(active := e.active[r := Running(true)]));
    }
  }

  lemma TakeKeepsInv(w: World, reply: Reply)
    requires Inv(w) && reply in w.toServer && reply.conn in w.owner && RowsAreKnown(w)
    ensures Inv(TakenResponse(w, reply))
  {
    if R.Matches(w.pending, w.owner[reply.conn], reply.conn, reply.message) {
      TakeResponseKeepsInv(w, reply);
    } else {
      LoseReplyKeepsInv(w, reply);
    }
  }

  // ---------------------------------------------------------------------
  // Every run
  // ---------------------------------------------------------------------

  lemma RowsAreAlwaysKnown(w: World)
    requires Inv(w)
    ensures RowsAreKnown(w)
  {
    forall k | k in w.pending
      ensures w.pending[k].owner < |w.sends|
    {
      assert RowOk(w, k);
    }
  }

  lemma ServerStepKeepsInv(w: World, a: Action)
    requires Inv(w) && RowsAreKnown(w) && Enabled(w, a) && !IsCallStep(a) && !IsExtensionStep(a)
    ensures Inv(Step(w, a))
  {
    match a
    case Connect(g, conn, now) => ConnectKeepsInv(w, g, conn, now);
    case UpdateRegistry(update) => RegistryKeepsInv(w, update);
    case FailConnection(browserID, conn) =>
      FailingKeepsInv(w, R.SentThrough(w.pending, browserID, conn), R.BrowserDisconnected);
    case CloseRouter => CloseKeepsInv(w);
    case LoseWire(wire) => LoseWireKeepsInv(w, wire);
    case LoseReply(reply) => LoseReplyKeepsInv(w, reply);
  }

  lemma CloseKeepsInv(w: World)
    requires Inv(w)
    ensures Inv(Failing(w, w.pending.Keys, R.Cancelled).(closed := true))
  {
    FailingKeepsInv(w, w.pending.Keys, R.Cancelled);
    ClosingKeepsInv(Failing(w, w.pending.Keys, R.Cancelled));
  }

  predicate IsExtensionStep(a: Action) {
    || a.SwitchSocket? || a.ReceiveRequest? || a.ReceiveCancel? || a.Finish? || a.Respond?
    || a.EndExecution? || a.RestartExtension?
  }

  lemma EndExecutionKeepsInv(w: World, b: string, r: string)
    requires Inv(w) && !IsRunning(w, b, r)
    ensures var e := ExtensionOf(w, b);
      Inv(WithExtension(w, b, e.(active := e.active - {r})))
  {
    assert b in w.extensions ==> ExtensionOk(w, b);
    var e := ExtensionOf(w, b);
    QuietExtensionKeepsInv(w, b, e.(active := e.active - {r}));
  }

  lemma ExtensionActionKeepsInv(w: World, a: Action)
    requires Inv(w) && RowsAreKnown(w) && Enabled(w, a) && IsExtensionStep(a)
    ensures Inv(Step(w, a))
  {
    match a
    case SwitchSocket(b, socket) => QuietExtensionKeepsInv(w, b, ExtensionOf(w, b).(socket := socket));
    case ReceiveRequest(conn, r) => ReceiveRequestKeepsInv(w, conn, r);
    case ReceiveCancel(conn, r) => ReceiveCancelKeepsInv(w, conn, r);
    case Finish(b, r, result) => FinishKeepsInv(w, b, r, result);
    case Respond(b, r) => RespondKeepsInv(w, b, r);
    case EndExecution(b, r) => EndExecutionKeepsInv(w, b, r);
    case RestartExtension(b) => QuietExtensionKeepsInv(w, b, Extension(None, map[]));
  }

  predicate IsCallStep(a: Action) {
    || a.StartSend? || a.RouteSend? || a.EnterSend? || a.WriteRequest? || a.GiveUp? || a.Receive?
    || a.TimeOut? || a.WriteCancel? || a.TakeResponse? || a.PushResult?
  }

  lemma CallStepKeepsInv(w: World, a: Action)
    requires Inv(w) && RowsAreKnown(w) && Enabled(w, a) && IsCallStep(a)
    ensures Inv(Step(w, a))
  {
    match a
    case StartSend(b, r, command) => StartKeepsInv(w, b, r, command);
    case RouteSend(i) => RouteKeepsInv(w, i);
    case EnterSend(i) => EnterKeepsInv(w, i);
    case WriteRequest(i, ok, onWire) => WriteKeepsInv(w, i, ok, ok || onWire);
    case GiveUp(i, code) => WithdrawKeepsInv(w, i, Returned(R.Error(code)));
    case Receive(i) => ReceiveKeepsInv(w, i);
    case TimeOut(i) => WithdrawKeepsInv(w, i, TimedOut);
    case WriteCancel(i, onWire, code) => WriteCancelKeepsInv(w, i, onWire, code);
    case TakeResponse(reply) => TakeKeepsInv(w, reply);
    case PushResult(i) => PushKeepsInv(w, i);
  }

  lemma StepKeepsInv(w: World, a: Action)
    requires Inv(w)
    ensures Inv(Step(w, a))
  {
    RowsAreAlwaysKnown(w);
    if Enabled(w, a) {
      if IsCallStep(a) {
        CallStepKeepsInv(w, a);
      } else if IsExtensionStep(a) {
        ExtensionActionKeepsInv(w, a);
      } else {
        ServerStepKeepsInv(w, a);
      }
    }
  }

  /** In every run, and every row of the table belongs to a call. */
  lemma {:induction false} EveryRunKeepsInv(actions: seq<Action>)
    ensures Inv(Run(actions)) && RowsAreKnown(Run(actions))
  {
    if actions != [] {
      EveryRunKeepsInv(actions[..|actions| - 1]);
      StepKeepsInv(Run(actions[..|actions| - 1]), actions[|actions| - 1]);
    }
    RowsAreAlwaysKnown(Run(actions));
  }

  // ---------------------------------------------------------------------
  // What a caller of Send is promised
  // ---------------------------------------------------------------------

  /** What `Send` returns for an outcome of the extension. */
  function Told(o: CommandOutcome): R.Outcome {
    match o
    case Success(json) => R.Result(json)
    case Failed(code) => R.Error(R.BrowserCode(code))
  }

  predicate FromBrowser(o: R.Outcome) {
    o.Result? || o.code.BrowserCode?
  }

  /** A browser result is the one outcome computed for this very request, and came over
      the connection the request went through; anything else is an error of the server. */
  lemma ReturnedResultIsTheComputedOne(actions: seq<Action>, i: nat)
    requires i < |Run(actions).sends| && Run(actions).sends[i].phase.Returned?
    ensures var w := Run(actions);
      var s := w.sends[i];
      if FromBrowser(s.phase.outcome)
      then KeyOf(s) in w.computed && s.phase.outcome == Told(w.computed[KeyOf(s)]) &&
           |s.taken| == 1 && s.taken[0].result.Response? && s.taken[0].via == s.conn
      else s.taken == [] || s.taken[0].result.Failure?
  {
    var w := Run(actions);
    var s := w.sends[i];
    EveryRunKeepsInv(actions);
    assert SendOk(w, i);
    if s.taken != [] {
      assert s.taken[0] in Results(s);
      assert ArrivalOk(w, s, s.taken[0]);
    }
  }

  /** Connections, ids, outcomes and executions are as they were. */
  predicate SameFacts(w: World, x: World) {
    x.owner == w.owner && x.issued == w.issued && x.computed == w.computed && x.started == w.started &&
    x.closed == w.closed
  }

  lemma RouteFacts(w: World, i: nat)
    requires i < |w.sends|
    ensures SameFacts(w, RoutedSend(w, i)) && RoutedSend(w, i).extensions == w.extensions
  {
  }

  lemma EnterFacts(w: World, i: nat)
    requires i < |w.sends|
    ensures SameFacts(w, EnteredSend(w, i)) && EnteredSend(w, i).extensions == w.extensions
  {
  }

  lemma WriteFacts(w: World, i: nat, ok: bool, onWire: bool)
    requires i < |w.sends|
    ensures SameFacts(w, WrittenRequest(w, i, ok, onWire))
    ensures WrittenRequest(w, i, ok, onWire).extensions == w.extensions
  {
  }

  lemma WithdrawFacts(w: World, i: nat, phase: Phase)
    requires i < |w.sends|
    ensures SameFacts(w, Withdrawn(w, i, phase)) && Withdrawn(w, i, phase).extensions == w.extensions
  {
  }

  lemma TakeFacts(w: World, reply: Reply)
    requires reply.conn in w.owner && RowsAreKnown(w)
    ensures SameFacts(w, TakenResponse(w, reply)) && TakenResponse(w, reply).extensions == w.extensions
  {
  }

  lemma PushFacts(w: World, i: nat)
    requires i < |w.sends| && w.sends[i].inFlight != []
    ensures SameFacts(w, PushedResult(w, i)) && PushedResult(w, i).extensions == w.extensions
  {
  }

  /** Steps of a call keep the facts. */
  lemma CallStepGrows(w: World, a: Action)
    requires IsCallStep(a) && RowsAreKnown(w) && Enabled(w, a)
    ensures (a.StartSend? || SameFacts(w, Step(w, a))) && Step(w, a).extensions == w.extensions
  {
    match a
    case StartSend(b, r, command) =>
    case RouteSend(i) => RouteFacts(w, i);
    case EnterSend(i) => EnterFacts(w, i);
    case WriteRequest(i, ok, onWire) => WriteFacts(w, i, ok, ok || onWire);
    case GiveUp(i, code) => WithdrawFacts(w, i, Returned(R.Error(code)));
    case Receive(i) =>
    case TimeOut(i) => WithdrawFacts(w, i, TimedOut);
    case WriteCancel(i, onWire, code) =>
    case TakeResponse(reply) => TakeFacts(w, reply);
    case PushResult(i) => PushFacts(w, i);
  }

  lemma ReceiveRequestFacts(w: World, conn: Conn, r: string)
    requires conn in w.owner
    ensures var x := ReceivedRequest(w, conn, r);
      SameFacts(w, x.(started := w.started)) && w.started <= x.started
  {
  }

  lemma ReceiveCancelFacts(w: World, conn: Conn, r: string)
    requires conn in w.owner
    ensures SameFacts(w, ReceivedCancel(w, conn, r))
  {
  }

  lemma ExtensionStepGrows(w: World, a: Action)
    requires IsExtensionStep(a) && RowsAreKnown(w) && Enabled(w, a)
    requires a.Finish? ==> R.Key(a.browserID, a.requestID) !in w.computed
    ensures Grows(w, Step(w, a)) && Step(w, a).closed == w.closed
  {
    match a
    case ReceiveRequest(conn, r) => ReceiveRequestFacts(w, conn, r);
    case ReceiveCancel(conn, r) => ReceiveCancelFacts(w, conn, r);
    case _ =>
  }

  lemma ServerStepGrows(w: World, a: Action)
    requires !IsCallStep(a) && !IsExtensionStep(a) && RowsAreKnown(w) && Enabled(w, a)
    ensures Grows(w, Step(w, a)) && (w.closed ==> Step(w, a).closed) && Step(w, a).extensions == w.extensions
  {
    match a
    case Connect(g, conn, now) =>
    case UpdateRegistry(update) =>
    case FailConnection(browserID, conn) =>
    case CloseRouter =>
    case LoseWire(wire) =>
    case LoseReply(reply) =>
  }

  lemma StepGrows(w: World, a: Action)
    requires ExtensionsOk(w) && RowsAreKnown(w)
    ensures Grows(w, Step(w, a))
    ensures w.closed ==> Step(w, a).closed
  {
    if Enabled(w, a) {
      if IsCallStep(a) {
        CallStepGrows(w, a);
      } else if IsExtensionStep(a) {
        if a.Finish? { assert ExtensionOk(w, a.browserID); }
        ExtensionStepGrows(w, a);
      } else {
        ServerStepGrows(w, a);
      }
    }
  }

  /** Outcomes, connections and ids of a run are never revised, and it stays closed. */
  lemma {:induction false} RunsGrow(actions: seq<Action>, n: nat)
    requires n <= |actions|
    ensures Grows(Run(actions[..n]), Run(actions))
    ensures Run(actions[..n]).closed ==> Run(actions).closed
  {
    if n == |actions| {
      assert actions[..n] == actions;
    } else {
      var before := actions[..|actions| - 1];
      assert before[..n] == actions[..n];
      RunsGrow(before, n);
      EveryRunKeepsInv(before);
      StepGrows(Run(before), actions[|actions| - 1]);
    }
  }

  /** A cancellation that reaches the running execution of `r` by `b`. */
  predicate CancelsNow(w: World, a: Action, b: string, r: string) {
    a.ReceiveCancel? && a.requestID == r && Enabled(w, a) && w.owner[a.conn] == b && IsRunning(w, b, r)
  }

  ghost predicate CancelReaches(actions: seq<Action>, k: nat, b: string, r: string)
    requires k < |actions|
  {
    CancelsNow(Run(actions[..k]), actions[k], b, r)
  }

  ghost predicate WasCancelled(actions: seq<Action>, b: string, r: string) {
    exists k :: 0 <= k < |actions| && CancelReaches(actions, k, b, r)
  }

  /** Whether a running execution has been aborted. */
  function Flag(w: World, b: string, r: string): Option<bool> {
    if IsRunning(w, b, r) then Some(ExtensionOf(w, b).active[r].aborted) else None
  }

  lemma CancelledOneStepLater(actions: seq<Action>, a: Action, b: string, r: string)
    ensures WasCancelled(actions + [a], b, r) <==>
      WasCancelled(actions, b, r) || CancelReaches(actions + [a], |actions|, b, r)
  {
    hide CancelReaches;
    forall k | 0 <= k < |actions|
      ensures CancelReaches(actions + [a], k, b, r) <==> CancelReaches(actions, k, b, r)
    {
      SameReach(actions, a, k, b, r);
    }
    if k :| 0 <= k < |actions| && CancelReaches(actions, k, b, r) {
      assert CancelReaches(actions + [a], k, b, r);
    }
  }

  lemma SameReach(actions: seq<Action>, a: Action, k: nat, b: string, r: string)
    requires k < |actions|
    ensures CancelReaches(actions + [a], k, b, r) <==> CancelReaches(actions, k, b, r)
  {
    assert (actions + [a])[..k] == actions[..k];
  }

  /** What is cancelled has been started. */
  lemma CancelledWasStarted(actions: seq<Action>, b: string, r: string)
    requires WasCancelled(actions, b, r)
    ensures R.Key(b, r) in Run(actions).started
  {
    var k :| 0 <= k < |actions| && CancelReaches(actions, k, b, r);
    var w := Run(actions[..k]);
    EveryRunKeepsInv(actions[..k]);
    assert ExtensionOk(w, b);
    RunsGrow(actions, k);
  }

  lemma RequestFlag(w: World, conn: Conn, requestID: string, b: string, r: string)
    requires conn in w.owner
    ensures var flag := Flag(ReceivedRequest(w, conn, requestID), b, r);
      flag == Flag(w, b, r) || (flag == Some(false) && w.owner[conn] == b && requestID == r && Flag(w, b, r).None?)
  {
  }

  lemma CancelFlag(w: World, conn: Conn, requestID: string, b: string, r: string)
    requires conn in w.owner
    ensures Flag(ReceivedCancel(w, conn, requestID), b, r) ==
      if w.owner[conn] == b && requestID == r && IsRunning(w, b, r) then Some(true) else Flag(w, b, r)
  {
  }

  lemma FinishFlag(w: World, browserID: string, requestID: string, result: CommandOutcome, b: string, r: string)
    requires IsRunning(w, browserID, requestID)
    ensures Flag(Finished(w, browserID, requestID, result), b, r) in {None, Flag(w, b, r)}
  {
  }

  lemma RespondFlag(w: World, browserID: string, requestID: string, b: string, r: string)
    requires IsSettled(w, browserID, requestID)
    ensures Flag(Responded(w, browserID, requestID), b, r) == Flag(w, b, r)
  {
  }

  lemma OthersLeaveExtensions(w: World, a: Action)
    requires RowsAreKnown(w) && Enabled(w, a) && !IsExtensionStep(a)
    ensures Step(w, a).extensions == w.extensions
  {
    if IsCallStep(a) { CallStepGrows(w, a); } else { ServerStepGrows(w, a); }
  }

  /** Only the start of an execution and a cancellation set its flag. */
  lemma ExtensionStepFlag(w: World, a: Action, b: string, r: string)
    requires RowsAreKnown(w) && Enabled(w, a) && IsExtensionStep(a)
    ensures Flag(Step(w, a), b, r).Some? ==>
      || (CancelsNow(w, a, b, r) && Flag(Step(w, a), b, r) == Some(true))
      || (!CancelsNow(w, a, b, r) && Flag(Step(w, a), b, r) == Flag(w, b, r))
      || (a.ReceiveRequest? && a.requestID == r && w.owner[a.conn] == b && Flag(w, b, r).None? &&
          Flag(Step(w, a), b, r) == Some(false))
  {
    match a
    case ReceiveRequest(conn, requestID) => RequestFlag(w, conn, requestID, b, r);
    case ReceiveCancel(conn, requestID) => CancelFlag(w, conn, requestID, b, r);
    case Finish(browserID, requestID, result) => FinishFlag(w, browserID, requestID, result, b, r);
    case Respond(browserID, requestID) => RespondFlag(w, browserID, requestID, b, r);
    case _ =>
  }

  /** An execution starts with a request that was not executed before, and unaborted. */
  lemma FlagStep(w: World, a: Action, b: string, r: string)
    requires Inv(w) && RowsAreKnown(w) && Flag(Step(w, a), b, r).Some?
    ensures Flag(Step(w, a), b, r) ==
      if CancelsNow(w, a, b, r) then Some(true) else if Flag(w, b, r).Some? then Flag(w, b, r) else Some(false)
    ensures Flag(w, b, r).None? ==> R.Key(b, r) !in w.started
  {
    if !Enabled(w, a) {
    } else if !IsExtensionStep(a) {
      OthersLeaveExtensions(w, a);
      hide Step;
      assert Flag(Step(w, a), b, r) == Flag(w, b, r);
    } else {
      ExtensionStepFlag(w, a, b, r);
      hide Step;
      if a.ReceiveRequest? { assert WireOk(w, Wire(a.conn, Request(a.requestID))); }
    }
  }

  lemma AbortedOneStepLater(actions: seq<Action>, a: Action, b: string, r: string)
    requires var w := Run(actions);
      Flag(w, b, r).Some? ==> Flag(w, b, r) == Some(WasCancelled(actions, b, r))
    requires Flag(Step(Run(actions), a), b, r).Some?
    ensures Flag(Step(Run(actions), a), b, r) == Some(WasCancelled(actions + [a], b, r))
  {
    hide Step, Inv, ExtensionOf, CancelsNow, WasCancelled;
    EveryRunKeepsInv(actions);
    FlagStep(Run(actions), a, b, r);
    assert (actions + [a])[..|actions|] == actions;
    CancelledOneStepLater(actions, a, b, r);
    if Flag(Run(actions), b, r).None? && WasCancelled(actions, b, r) { CancelledWasStarted(actions, b, r); }
  }

  /** A running execution is aborted if and only if a cancellation reached it. */
  lemma {:induction false} AbortedIffCancelled(actions: seq<Action>, b: string, r: string)
    requires Flag(Run(actions), b, r).Some?
    ensures Flag(Run(actions), b, r) == Some(WasCancelled(actions, b, r))
  {
    assert Flag(NEW_WORLD, b, r).None?;
    hide Step, Flag, WasCancelled;
    if actions != [] {
      var before := actions[..|actions| - 1];
      assert actions == before + [actions[|actions| - 1]];
      if Flag(Run(before), b, r).Some? { AbortedIffCancelled(before, b, r); }
      AbortedOneStepLater(before, actions[|actions| - 1], b, r);
    }
  }

  /** The outcome of a request is computed at most once in a run, by the browser the
      request was addressed to: CANCELLED if a cancellation reached the execution before
      its handler finished, else the handler's result. */
  lemma OutcomesAreComputedOnce(actions: seq<Action>, n: nat, b: string, r: string, result: CommandOutcome)
    requires n < |actions| && actions[n] == Finish(b, r, result) && Enabled(Run(actions[..n]), actions[n])
    ensures R.Key(b, r) !in Run(actions[..n]).computed
    ensures R.Key(b, r) in Run(actions).computed
    ensures Run(actions).computed[R.Key(b, r)] ==
      if WasCancelled(actions[..n], b, r) then Failed(CANCELLED) else result
    ensures r in Run(actions).issued && Run(actions).issued[r] < |Run(actions).sends|
    ensures Run(actions).sends[Run(actions).issued[r]].browserID == b
  {
    var w := Run(actions[..n]);
    EveryRunKeepsInv(actions[..n]);
    assert ExtensionOk(w, b);
    AbortedIffCancelled(actions[..n], b, r);
    var next := actions[..n + 1];
    assert next[..n] == actions[..n];
    RunsGrow(actions, n + 1);
    EveryRunKeepsInv(actions);
    assert StartedOk(Run(actions), R.Key(b, r));
  }

  lemma RowIsOfItsCall(w: World, i: nat)
    requires SendsOk(w) && RowsOk(w) && i < |w.sends| && KeyOf(w.sends[i]) in w.pending
    ensures w.pending[KeyOf(w.sends[i])] == R.Slot(w.sends[i].conn, i)
  {
    var j := w.pending[KeyOf(w.sends[i])].owner;
    assert RowOk(w, KeyOf(w.sends[i]));
    assert SendOk(w, i) && SendOk(w, j);
    if i != j { RowsAreApart(w, i, j); }
  }

  /** The reply came over another connection than the call `i` it answers. */
  predicate ComesOverAnother(w: World, reply: Reply, i: nat) {
    && Enabled(w, TakeResponse(reply)) && i < |w.sends|
    && KeyOf(w.sends[i]) == R.Key(w.owner[reply.conn], reply.message.requestID)
    && w.sends[i].conn != reply.conn
  }

  lemma OtherConnectionResolvesNothing(w: World, reply: Reply, i: nat)
    requires SendsOk(w) && RowsOk(w) && RowsAreKnown(w) && ComesOverAnother(w, reply, i)
    ensures TakenResponse(w, reply).sends == w.sends && TakenResponse(w, reply).pending == w.pending
  {
    if KeyOf(w.sends[i]) in w.pending { RowIsOfItsCall(w, i); }
  }

  /** A response over any other connection than the call's resolves nothing. */
  lemma OtherConnectionsResolveNothing(actions: seq<Action>, reply: Reply, i: nat)
    requires ComesOverAnother(Run(actions), reply, i)
    ensures Step(Run(actions), TakeResponse(reply)).sends == Run(actions).sends
    ensures Step(Run(actions), TakeResponse(reply)).pending == Run(actions).pending
  {
    EveryRunKeepsInv(actions);
    assert SendsOk(Run(actions)) && RowsOk(Run(actions));
    hide Inv, SendsOk, RowsOk, ComesOverAnother;
    OtherConnectionResolvesNothing(Run(actions), reply, i);
  }

  /** A push finds the one slot empty, so deliveries never block; a waiting call always
      has a row, or its one result on the way. */
  lemma DeliveryNeverBlocks(actions: seq<Action>, i: nat)
    requires i < |Run(actions).sends|
    ensures var s := Run(actions).sends[i];
      && |s.inFlight| + |s.channel| + |s.taken| <= 1
      && (s.inFlight != [] ==> s.channel == [])
      && (s.phase == Sent ==> HasRow(Run(actions), i) || |s.inFlight| + |s.channel| == 1)
      && (s.phase.Returned? ==> !HasRow(Run(actions), i))
  {
    EveryRunKeepsInv(actions);
    assert SendOk(Run(actions), i);
  }

  /** Giving up or timing out removes no row but one's own. */
  lemma WithdrawalIsOnesOwn(actions: seq<Action>, a: Action, k: R.Key)
    requires (a.GiveUp? || a.TimeOut?) && k in Run(actions).pending && Run(actions).pending[k].owner != a.i
    ensures k in Step(Run(actions), a).pending && Step(Run(actions), a).pending[k] == Run(actions).pending[k]
  {
  }

  /** Once closed, the table is empty for good. */
  lemma ClosedTableStaysEmpty(actions: seq<Action>, n: nat)
    requires n <= |actions| && Run(actions[..n]).closed
    ensures Run(actions).pending == map[]
  {
    RunsGrow(actions, n);
    EveryRunKeepsInv(actions);
  }

  // ---------------------------------------------------------------------
  // Accounting
  // ---------------------------------------------------------------------

  ghost function AcceptedCalls(w: World): set<nat> {
    set i: nat | i < |w.sends| && w.sends[i].accepted
  }

  /** Calls whose result left the table as a response, or as a failure. */
  ghost function ResolvedCalls(w: World, response: bool): set<nat> {
    set i: nat | i < |w.sends| && Results(w.sends[i]) != [] && Results(w.sends[i])[0].result.Response? == response
  }

  ghost function WithdrawnCalls(w: World): set<nat> {
    set i: nat | i < |w.sends| && w.sends[i].withdrawn
  }

  ghost function PendingCalls(w: World): set<nat> {
    set i: nat | i < |w.sends| && HasRow(w, i)
  }

  lemma {:induction false} OneCallPerRow(w: World, keys: set<R.Key>)
    requires RowsOk(w) && keys <= w.pending.Keys
    ensures |keys| == |set k | k in keys :: w.pending[k].owner|
  {
    var owners := set k | k in keys :: w.pending[k].owner;
    if keys == {} {
      assert owners == {};
    } else {
      var k :| k in keys;
      OneCallPerRow(w, keys - {k});
      assert RowOk(w, k);
      forall j | j in keys - {k}
        ensures w.pending[j].owner != w.pending[k].owner
      {
        assert RowOk(w, j);
      }
      assert owners == (set j | j in keys - {k} :: w.pending[j].owner) + {w.pending[k].owner};
    }
  }

  lemma PendingCallsAreTheRows(w: World)
    requires RowsOk(w)
    ensures |PendingCalls(w)| == |w.pending|
  {
    OneCallPerRow(w, w.pending.Keys);
    var owners := set k | k in w.pending.Keys :: w.pending[k].owner;
    forall i | i in owners
      ensures i in PendingCalls(w)
    {
      var k :| k in w.pending && w.pending[k].owner == i;
      assert RowOk(w, k);
    }
    assert owners == PendingCalls(w);
  }

  lemma CallIsAccountedFor(w: World, i: nat)
    requires i < |w.sends| && PlacesOk(w, i)
    ensures One(w.sends[i].accepted) ==
      One(i in ResolvedCalls(w, true)) + One(i in ResolvedCalls(w, false)) + One(i in WithdrawnCalls(w)) +
      One(i in PendingCalls(w))
  {
  }

  lemma CallsAreAccountedFor(w: World)
    requires SendsOk(w)
    ensures |AcceptedCalls(w)| ==
      |ResolvedCalls(w, true)| + |ResolvedCalls(w, false)| + |WithdrawnCalls(w)| + |PendingCalls(w)|
  {
    var a, b, c, d := ResolvedCalls(w, true), ResolvedCalls(w, false), WithdrawnCalls(w), PendingCalls(w);
    forall i: nat | i < |w.sends|
      ensures One(w.sends[i].accepted) == One(i in a) + One(i in b) + One(i in c) + One(i in d)
    {
      assert SendOk(w, i);
      CallIsAccountedFor(w, i);
    }
    assert a * b == {} && (a + b) * c == {} && (a + b + c) * d == {};
    assert AcceptedCalls(w) == a + b + c + d;
  }

  /** Accepted = delivered + failed + withdrawn + pending. */
  lemma AcceptedCallsAreAccountedFor(actions: seq<Action>)
    ensures var w := Run(actions);
      |AcceptedCalls(w)| ==
        |ResolvedCalls(w, true)| + |ResolvedCalls(w, false)| + |WithdrawnCalls(w)| + |w.pending|
  {
    EveryRunKeepsInv(actions);
    PendingCallsAreTheRows(Run(actions));
    CallsAreAccountedFor(Run(actions));
  }

  // ---------------------------------------------------------------------
  // What does arrive
  // ---------------------------------------------------------------------

  /** `reply` answers call `i`, over the connection the call went through. */
  predicate Answers(w: World, reply: Reply, i: nat) {
    && reply in w.toServer && i < |w.sends| && reply.conn == w.sends[i].conn
    && reply.message.browserID == w.sends[i].browserID && reply.message.requestID == w.sends[i].requestID != ""
  }

  /** A call that has its row has nothing else yet. */
  lemma RowMeansNothingYet(w: World, i: nat)
    requires SendsOk(w) && i < |w.sends| && HasRow(w, i)
    ensures Results(w.sends[i]) == [] && w.sends[i].accepted
    ensures w.sends[i].conn in w.owner && w.owner[w.sends[i].conn] == w.sends[i].browserID
    ensures w.pending[KeyOf(w.sends[i])] == R.Slot(w.sends[i].conn, i)
  {
    assert SendOk(w, i);
  }

  lemma RepliesAreResponses(w: World, reply: Reply)
    requires ExtensionsOk(w) && reply in w.toServer
    ensures reply.message.isResponse
  {
    assert ReplyOk(w, reply);
  }

  /** A reply that answers a call which still waits in the table takes the row out and is
      on its way to the call as it is, whether it reports success or failure. */
  lemma ReplyIsDelivered(actions: seq<Action>, reply: Reply, i: nat)
    requires Answers(Run(actions), reply, i) && HasRow(Run(actions), i)
    ensures var w, x := Run(actions), Step(Run(actions), TakeResponse(reply));
      && x.pending == w.pending - {KeyOf(w.sends[i])} && |x.sends| == |w.sends|
      && x.sends[i] == w.sends[i].(inFlight := [Arrival(R.Response(reply.message), reply.conn)])
      && (forall j :: 0 <= j < |w.sends| && j != i ==> x.sends[j] == w.sends[j])
  {
    var w := Run(actions);
    EveryRunKeepsInv(actions);
    assert SendsOk(w) && ExtensionsOk(w);
    hide SendsOk, ExtensionsOk, Inv, Run, TakenResponse, RowsAreKnown;
    RowMeansNothingYet(w, i);
    RepliesAreResponses(w, reply);
    TakenReply(w, reply, i);
  }

  lemma TakenReply(w: World, reply: Reply, i: nat)
    requires RowsAreKnown(w) && reply.conn in w.owner && i < |w.sends| && Results(w.sends[i]) == []
    requires var s, m := w.sends[i], reply.message;
      && m.isResponse && m.requestID == s.requestID != "" && m.browserID == s.browserID == w.owner[reply.conn]
      && reply.conn == s.conn && KeyOf(s) in w.pending && w.pending[KeyOf(s)] == R.Slot(s.conn, i)
    ensures var x := TakenResponse(w, reply);
      && x.pending == w.pending - {KeyOf(w.sends[i])} && |x.sends| == |w.sends|
      && x.sends[i] == w.sends[i].(inFlight := [Arrival(R.Response(reply.message), reply.conn)])
      && (forall j :: 0 <= j < |w.sends| && j != i ==> x.sends[j] == w.sends[j])
  {
    assert [] + [Arrival(R.Response(reply.message), reply.conn)] == [Arrival(R.Response(reply.message), reply.conn)];
  }

  /** A result that has left the table is pushed into the empty slot. */
  lemma ResultIsPushed(actions: seq<Action>, i: nat)
    requires i < |Run(actions).sends| && Run(actions).sends[i].inFlight != []
    ensures var w, x := Run(actions), Step(Run(actions), PushResult(i));
      |x.sends| == |w.sends| && x.sends[i] == w.sends[i].(inFlight := [], channel := w.sends[i].inFlight)
  {
    var w := Run(actions);
    EveryRunKeepsInv(actions);
    assert SendOk(w, i);
    hide Run, Inv;
    var s := w.sends[i];
    assert |s.inFlight| == 1 && s.channel == [];
    assert s.inFlight[1..] == [] && [] + [s.inFlight[0]] == s.inFlight;
  }

  /** A waiting call returns what its browser computed: the result, or the error that the
      handler failed with. */
  lemma ResponseIsReturned(actions: seq<Action>, i: nat)
    requires i < |Run(actions).sends| && Run(actions).sends[i].phase == Sent
    requires Run(actions).sends[i].channel != [] && Run(actions).sends[i].channel[0].result.Response?
    ensures var w, x := Run(actions), Step(Run(actions), Receive(i));
      && KeyOf(w.sends[i]) in w.computed && |x.sends| == |w.sends|
      && x.sends[i].phase == Returned(Told(w.computed[KeyOf(w.sends[i])]))
  {
    var w := Run(actions);
    EveryRunKeepsInv(actions);
    assert SendOk(w, i);
    hide Run, Inv;
    assert w.sends[i].channel[0] in Results(w.sends[i]);
    assert ArrivalOk(w, w.sends[i], w.sends[i].channel[0]);
  }

  /** A call that has a result has just that one, and no row. */
  lemma OneResultOnly(w: World, i: nat)
    requires SendsOk(w) && i < |w.sends| && Results(w.sends[i]) != []
    ensures !HasRow(w, i) && |Results(w.sends[i])| == 1
  {
    assert SendOk(w, i);
  }

  lemma MovesKeepResults(s: Send)
    requires |Results(s)| == 1
    ensures s.inFlight != [] ==>
      Results(s.(inFlight := s.inFlight[1..], channel := s.channel + [s.inFlight[0]])) == Results(s)
    ensures s.channel != [] ==>
      Results(s.(channel := s.channel[1..], taken := s.taken + [s.channel[0]])) == Results(s)
  {
    if s.inFlight != [] {
      assert s.inFlight == [s.inFlight[0]] && s.channel == [] && s.taken == [];
    } else if s.channel != [] {
      assert s.channel == [s.channel[0]] && s.taken == [];
    }
  }

  lemma FailingKeepsAnswer(w: World, keys: set<R.Key>, code: R.Code, i: nat)
    requires i < |w.sends| && !HasRow(w, i)
    ensures |Failing(w, keys, code).sends| == |w.sends| && Failing(w, keys, code).sends[i] == w.sends[i]
  {
  }

  lemma TakeKeepsAnswer(w: World, reply: Reply, i: nat)
    requires RowsOk(w) && RowsAreKnown(w) && reply.conn in w.owner && i < |w.sends| && !HasRow(w, i)
    ensures |TakenResponse(w, reply).sends| == |w.sends| && TakenResponse(w, reply).sends[i] == w.sends[i]
  {
    var k := R.Key(w.owner[reply.conn], reply.message.requestID);
    if k in w.pending { assert RowOk(w, k); }
  }

  /** The results of call `i` are the same in both worlds. */
  predicate SameAnswer(w: World, x: World, i: nat) {
    i < |w.sends| && i < |x.sends| && Results(x.sends[i]) == Results(w.sends[i])
  }

  lemma WithSendKeepsAnswer(w: World, j: nat, s: Send, i: nat)
    requires j < |w.sends| && i < |w.sends| && (i == j ==> Results(s) == Results(w.sends[i]))
    ensures SameAnswer(w, WithSend(w, j, s), i)
  {
  }

  lemma SendingKeepsAnswer(w: World, j: nat, i: nat)
    requires j < |w.sends| && i < |w.sends|
    ensures SameAnswer(w, RoutedSend(w, j), i) && SameAnswer(w, EnteredSend(w, j), i)
  {
    WithSendKeepsAnswer(w, j, RoutedSend(w, j).sends[j], i);
    WithSendKeepsAnswer(w, j, EnteredSend(w, j).sends[j], i);
  }

  lemma WritingKeepsAnswer(w: World, j: nat, ok: bool, onWire: bool, i: nat)
    requires j < |w.sends| && i < |w.sends|
    ensures SameAnswer(w, WrittenRequest(w, j, ok, onWire), i)
  {
    WithSendKeepsAnswer(w, j, WrittenRequest(w, j, ok, onWire).sends[j], i);
  }

  lemma WithdrawingKeepsAnswer(w: World, j: nat, phase: Phase, i: nat)
    requires j < |w.sends| && i < |w.sends|
    ensures SameAnswer(w, Withdrawn(w, j, phase), i)
  {
    WithSendKeepsAnswer(w, j, Withdrawn(w, j, phase).sends[j], i);
  }

  lemma CancellingKeepsAnswer(w: World, j: nat, onWire: bool, code: R.Code, i: nat)
    requires j < |w.sends| && i < |w.sends|
    ensures SameAnswer(w, WrittenCancel(w, j, onWire, code), i)
  {
    WithSendKeepsAnswer(w, j, WrittenCancel(w, j, onWire, code).sends[j], i);
  }

  lemma PushKeepsAnswer(w: World, j: nat, i: nat)
    requires j < |w.sends| && i < |w.sends| && |Results(w.sends[i])| == 1 && w.sends[j].inFlight != []
    ensures SameAnswer(w, PushedResult(w, j), i)
  {
    if i == j { MovesKeepResults(w.sends[i]); }
    hide Results;
    WithSendKeepsAnswer(w, j, PushedResult(w, j).sends[j], i);
  }

  lemma ReceiveKeepsAnswer(w: World, j: nat, i: nat)
    requires j < |w.sends| && i < |w.sends| && |Results(w.sends[i])| == 1 && w.sends[j].channel != []
    ensures SameAnswer(w, Received(w, j), i)
  {
    var s := w.sends[j];
    MovesKeepResults(w.sends[i]);
    assert Results(Received(w, j).sends[j]) ==
      Results(s.(channel := s.channel[1..], taken := s.taken + [s.channel[0]]));
    hide Results;
    WithSendKeepsAnswer(w, j, Received(w, j).sends[j], i);
  }

  lemma CallStepKeepsAnswer(w: World, a: Action, i: nat)
    requires RowsOk(w) && RowsAreKnown(w) && i < |w.sends| && |Results(w.sends[i])| == 1 && !HasRow(w, i)
    requires IsCallStep(a) && Enabled(w, a)
    ensures SameAnswer(w, Step(w, a), i)
  {
    hide RoutedSend, EnteredSend, WrittenRequest, Withdrawn, WrittenCancel, PushedResult, Received, TakenResponse,
      RowsAreKnown, RowsOk, HasRow;
    match a
    case StartSend(b, r, command) =>
    case TakeResponse(reply) => TakeKeepsAnswer(w, reply, i);
    case PushResult(j) => PushKeepsAnswer(w, j, i);
    case Receive(j) => ReceiveKeepsAnswer(w, j, i);
    case RouteSend(j) => SendingKeepsAnswer(w, j, i);
    case EnterSend(j) => SendingKeepsAnswer(w, j, i);
    case WriteRequest(j, ok, onWire) => WritingKeepsAnswer(w, j, ok, ok || onWire, i);
    case GiveUp(j, code) => WithdrawingKeepsAnswer(w, j, Returned(R.Error(code)), i);
    case TimeOut(j) => WithdrawingKeepsAnswer(w, j, TimedOut, i);
    case WriteCancel(j, onWire, code) => CancellingKeepsAnswer(w, j, onWire, code, i);
  }

  lemma ExtensionStepKeepsSends(w: World, a: Action)
    requires RowsAreKnown(w) && IsExtensionStep(a) && Enabled(w, a)
    ensures Step(w, a).sends == w.sends
  {
  }

  lemma StepKeepsAnswer(w: World, a: Action, i: nat)
    requires Inv(w) && RowsAreKnown(w) && i < |w.sends| && Results(w.sends[i]) != []
    ensures SameAnswer(w, Step(w, a), i)
  {
    assert SendsOk(w) && RowsOk(w);
    OneResultOnly(w, i);
    hide Inv, SendsOk, RowsOk, Failing, HasRow, RowsAreKnown, Results;
    if Enabled(w, a) {
      if IsCallStep(a) {
        CallStepKeepsAnswer(w, a, i);
      } else if IsExtensionStep(a) {
        ExtensionStepKeepsSends(w, a);
      } else {
        ServerStepKeepsAnswer(w, a, i);
      }
    }
  }

  lemma ServerStepKeepsAnswer(w: World, a: Action, i: nat)
    requires RowsAreKnown(w) && i < |w.sends| && !HasRow(w, i)
    requires !IsCallStep(a) && !IsExtensionStep(a) && Enabled(w, a)
    ensures SameAnswer(w, Step(w, a), i)
  {
    hide Failing, HasRow, RowsAreKnown;
    match a
    case FailConnection(b, conn) =>
      FailingKeepsAnswer(w, R.SentThrough(w.pending, b, conn), R.BrowserDisconnected, i);
    case CloseRouter => FailingKeepsAnswer(w, w.pending.Keys, R.Cancelled, i);
    case Connect(_, _, _) =>
    case UpdateRegistry(_) =>
    case LoseWire(_) =>
    case LoseReply(_) =>
  }

  /** Once an answer has left the table, the call keeps it, whatever happens. */
  lemma {:induction false} AnswersAreKept(actions: seq<Action>, n: nat, i: nat)
    requires n <= |actions| && i < |Run(actions[..n]).sends| && Results(Run(actions[..n]).sends[i]) != []
    ensures i < |Run(actions).sends| && Results(Run(actions).sends[i]) == Results(Run(actions[..n]).sends[i])
  {
    if n == |actions| {
      assert actions[..n] == actions;
    } else {
      var before := actions[..|actions| - 1];
      assert before[..n] == actions[..n];
      AnswersAreKept(before, n, i);
      EveryRunKeepsInv(before);
      hide Step;
      StepKeepsAnswer(Run(before), actions[|actions| - 1], i);
    }
  }

  /** Once its answer has left the table, a call that returns something it received returns
      what its browser computed, however long that takes. */
  lemma DeliveredAnswerIsReturned(actions: seq<Action>, n: nat, i: nat)
    requires n <= |actions| && i < |Run(actions[..n]).sends|
    requires Results(Run(actions[..n]).sends[i]) != [] && Results(Run(actions[..n]).sends[i])[0].result.Response?
    ensures i < |Run(actions).sends|
    ensures var w := Run(actions);
      w.sends[i].phase.Returned? && w.sends[i].taken != [] ==>
        KeyOf(w.sends[i]) in w.computed && w.sends[i].phase.outcome == Told(w.computed[KeyOf(w.sends[i])])
  {
    AnswersAreKept(actions, n, i);
    EveryRunKeepsInv(actions);
    var w := Run(actions);
    assert SendsOk(w);
    hide *;
    if w.sends[i].phase.Returned? && w.sends[i].taken != [] { TakenIsTold(w, i); }
  }

  lemma TakenIsTold(w: World, i: nat)
    requires SendsOk(w) && i < |w.sends| && w.sends[i].phase.Returned? && w.sends[i].taken != []
    ensures Results(w.sends[i]) != []
    ensures Results(w.sends[i])[0].result.Response? ==>
      KeyOf(w.sends[i]) in w.computed && w.sends[i].phase.outcome == Told(w.computed[KeyOf(w.sends[i])])
  {
    var s := w.sends[i];
    assert SendOk(w, i);
    assert s.inFlight == [] && s.channel == [] && s.taken == [s.taken[0]];
    assert s.taken[0] in Results(s);
    assert ArrivalOk(w, s, s.taken[0]);
  }

  /** A call whose browser is connected and can do it goes through the browser's current
      connection; any other returns the error that says why. */
  lemma CallIsRouted(actions: seq<Action>, i: nat)
    requires Enabled(Run(actions), RouteSend(i))
    ensures var w, x := Run(actions), Step(Run(actions), RouteSend(i));
      var s := w.sends[i];
      |x.sends| == |w.sends| &&
      if s.browserID !in w.browsers then x.sends[i].phase == Returned(R.Error(R.BrowserNotFound))
      else
        var e := w.browsers[s.browserID];
        if !e.browser.connected then x.sends[i].phase == Returned(R.Error(R.BrowserDisconnected))
        else if s.command !in e.browser.capabilities then x.sends[i].phase == Returned(R.Error(R.CapabilityUnavailable))
        else x.sends[i].phase == Routed && x.sends[i].conn == e.browser.connectionID
  {
    EveryRunKeepsInv(actions);
    var w := Run(actions);
    assert Registry.Consistent(w.browsers);
    hide Run, Inv, RowsAreKnown, Registry.Consistent, RoutedSend;
    RoutedPhase(w, i);
  }

  lemma RoutedPhase(w: World, i: nat)
    requires Registry.Consistent(w.browsers) && i < |w.sends|
    ensures var x, s := RoutedSend(w, i), w.sends[i];
      |x.sends| == |w.sends| &&
      if s.browserID !in w.browsers then x.sends[i].phase == Returned(R.Error(R.BrowserNotFound))
      else
        var e := w.browsers[s.browserID];
        if !e.browser.connected then x.sends[i].phase == Returned(R.Error(R.BrowserDisconnected))
        else if s.command !in e.browser.capabilities then x.sends[i].phase == Returned(R.Error(R.CapabilityUnavailable))
        else x.sends[i].phase == Routed && x.sends[i].conn == e.browser.connectionID
  {
    if w.sends[i].browserID in w.browsers {
      assert Registry.EntryOk(w.sends[i].browserID, w.browsers[w.sends[i].browserID]);
    }
  }

  /** A call with a connection enters its row, unless the router has been closed: request
      ids do not collide. */
  lemma CallIsEntered(actions: seq<Action>, i: nat)
    requires Enabled(Run(actions), EnterSend(i))
    ensures var w, x := Run(actions), Step(Run(actions), EnterSend(i));
      |x.sends| == |w.sends| &&
      if w.closed then x.sends[i].phase == Returned(R.Error(R.Cancelled)) && x.pending == w.pending
      else x.sends[i].phase == Entered && x.pending == w.pending[KeyOf(w.sends[i]) := R.Slot(w.sends[i].conn, i)]
  {
    EveryRunKeepsInv(actions);
    var w := Run(actions);
    assert SendsOk(w) && RowsOk(w);
    hide Run, Inv;
    if KeyOf(w.sends[i]) in w.pending { RowIsOfItsCall(w, i); }
    assert SendOk(w, i);
  }

  /** A request that was written is on its way to the browser the call chose; one that
      arrives is executed, and not aborted. */
  lemma RequestIsExecuted(actions: seq<Action>, conn: Conn, r: string)
    requires Enabled(Run(actions), ReceiveRequest(conn, r))
    ensures var w, x := Run(actions), Step(Run(actions), ReceiveRequest(conn, r));
      Flag(x, w.owner[conn], r) == Some(false)
  {
    EveryRunKeepsInv(actions);
    var w := Run(actions);
    assert WiresOk(w) && ExtensionsOk(w);
    hide Run, Inv, WiresOk, ExtensionsOk, ReceivedRequest, Flag, RowsAreKnown;
    FreshRequestRuns(w, conn, r);
  }

  lemma FreshRequestRuns(w: World, conn: Conn, r: string)
    requires WiresOk(w) && ExtensionsOk(w) && Wire(conn, Request(r)) in w.toBrowser && conn in w.owner
    ensures Flag(ReceivedRequest(w, conn, r), w.owner[conn], r) == Some(false)
  {
    var b := w.owner[conn];
    assert WireOk(w, Wire(conn, Request(r)));
    if b in w.extensions { assert ExtensionOk(w, b); }
    hide WiresOk, ExtensionsOk;
  }

  lemma RequestIsSent(actions: seq<Action>, i: nat, onWire: bool)
    requires Enabled(Run(actions), WriteRequest(i, true, onWire))
    ensures var w, x := Run(actions), Step(Run(actions), WriteRequest(i, true, onWire));
      |x.sends| == |w.sends| && x.sends[i].phase == Sent &&
      Wire(w.sends[i].conn, Request(w.sends[i].requestID)) in x.toBrowser
  {
    EveryRunKeepsInv(actions);
    hide Run, Inv;
  }

  /** The message says for which request, and how its handler ended. */
  predicate Carries(m: R.Message, b: string, r: string, o: CommandOutcome) {
    m.browserID == b && m.requestID == r &&
    match o
    case Success(json) => m.success == Some(true) && m.result == json
    case Failed(code) => m.success == Some(false) && m.error == Some(code)
  }

  /** A browser whose handler has finished answers over its current connection: with the
      result, or with the error code. */
  lemma OutcomeIsSent(actions: seq<Action>, b: string, r: string)
    requires Enabled(Run(actions), Respond(b, r)) && ExtensionOf(Run(actions), b).socket.Some?
    ensures var w, x := Run(actions), Step(Run(actions), Respond(b, r));
      R.Key(b, r) in w.computed &&
      exists m :: Reply(ExtensionOf(w, b).socket.value, m) in x.toServer && Carries(m, b, r, w.computed[R.Key(b, r)])
  {
    EveryRunKeepsInv(actions);
    var w := Run(actions);
    assert ExtensionsOk(w);
    hide Run, Inv, ExtensionsOk, Responded, RowsAreKnown;
    RespondedReply(w, b, r);
  }

  lemma RespondedReply(w: World, b: string, r: string)
    requires ExtensionsOk(w) && IsSettled(w, b, r) && ExtensionOf(w, b).socket.Some?
    ensures R.Key(b, r) in w.computed
    ensures var x, o := Responded(w, b, r), w.computed[R.Key(b, r)];
      exists m :: Reply(ExtensionOf(w, b).socket.value, m) in x.toServer && Carries(m, b, r, o)
  {
    assert ExtensionOk(w, b);
    hide ExtensionsOk;
    var m := ResponseFor(R.Key(b, r), ExtensionOf(w, b).active[r].outcome);
    assert Reply(ExtensionOf(w, b).socket.value, m) in Responded(w, b, r).toServer;
  }

  /** A call that times out asks its browser to stop. */
  lemma CancelIsSent(actions: seq<Action>, i: nat, code: R.Code)
    requires Enabled(Run(actions), WriteCancel(i, true, code))
    ensures var w, x := Run(actions), Step(Run(actions), WriteCancel(i, true, code));
      Wire(w.sends[i].conn, Cancel(w.sends[i].requestID)) in x.toBrowser
  {
    EveryRunKeepsInv(actions);
    hide Run, Inv;
  }

  /** When a connection fails, exactly the calls that wait for an answer through it fail. */
  lemma ConnectionFailureReachesExactly(actions: seq<Action>, b: string, conn: Conn, i: nat)
    requires i < |Run(actions).sends|
    ensures var w, x := Run(actions), Step(Run(actions), FailConnection(b, conn));
      var s := w.sends[i];
      |x.sends| == |w.sends| &&
      if HasRow(w, i) && s.browserID == b && s.conn == conn
      then !HasRow(x, i) && x.sends[i] == s.(inFlight := [Arrival(R.Failure(R.BrowserDisconnected), "")])
      else x.sends[i] == s && (HasRow(x, i) <==> HasRow(w, i))
  {
    EveryRunKeepsInv(actions);
    var w := Run(actions);
    assert SendsOk(w) && RowsOk(w);
    hide Run, Inv, SendsOk, RowsOk;
    if HasRow(w, i) { RowMeansNothingYet(w, i); }
    if KeyOf(w.sends[i]) in w.pending { RowIsOfItsCall(w, i); }
    FailingReaches(w, R.SentThrough(w.pending, b, conn), R.BrowserDisconnected, i);
    hide Failing;
  }

  lemma FailingReaches(w: World, keys: set<R.Key>, code: R.Code, i: nat)
    requires i < |w.sends|
    ensures var x, s := Failing(w, keys, code), w.sends[i];
      |x.sends| == |w.sends| &&
      if HasRow(w, i) && KeyOf(s) in keys
      then !HasRow(x, i) && x.sends[i] == s.(inFlight := s.inFlight + [Arrival(R.Failure(code), "")])
      else x.sends[i] == s && (HasRow(x, i) <==> HasRow(w, i))
  {
  }

  /** When the router closes, every call that waits for an answer is cancelled. */
  lemma CloseReachesAll(actions: seq<Action>, i: nat)
    requires i < |Run(actions).sends| && HasRow(Run(actions), i)
    ensures var x := Step(Run(actions), CloseRouter);
      |x.sends| == |Run(actions).sends| && x.closed &&
      x.sends[i] == Run(actions).sends[i].(inFlight := [Arrival(R.Failure(R.Cancelled), "")])
  {
    EveryRunKeepsInv(actions);
    var w := Run(actions);
    assert SendsOk(w) && (w.closed ==> w.pending == map[]);
    hide Run, Inv, SendsOk;
    RowMeansNothingYet(w, i);
    FailingReaches(w, w.pending.Keys, R.Cancelled, i);
    hide Failing;
  }

  lemma RunMore(actions: seq<Action>, a: Action)
    ensures Run(actions + [a]) == Step(Run(actions), a)
  {
    assert (actions + [a])[..|actions|] == actions;
  }

  /** Call `i` waits for the execution that `b` is running for it, over a connection that is
      still the browser's. */
  predicate Awaits(w: World, i: nat) {
    && i < |w.sends| && w.sends[i].phase == Sent && HasRow(w, i) && w.sends[i].requestID != ""
    && ExtensionOf(w, w.sends[i].browserID).socket == Some(w.sends[i].conn)
  }

  lemma FinishStep(w: World, i: nat, result: CommandOutcome)
    requires RowsAreKnown(w) && Awaits(w, i) && IsRunning(w, w.sends[i].browserID, w.sends[i].requestID)
    ensures var s := w.sends[i];
      var x := Step(w, Finish(s.browserID, s.requestID, result));
      && Awaits(x, i) && x.sends == w.sends && IsSettled(x, s.browserID, s.requestID)
      && KeyOf(s) in x.computed
      && x.computed[KeyOf(s)] ==
           if Flag(w, s.browserID, s.requestID) == Some(true) then Failed(CANCELLED) else result
  {
    hide RowsAreKnown;
  }

  lemma RespondStep(w: World, i: nat)
    requires RowsAreKnown(w) && ExtensionsOk(w) && Awaits(w, i)
    requires IsSettled(w, w.sends[i].browserID, w.sends[i].requestID)
    ensures var s := w.sends[i];
      var x := Step(w, Respond(s.browserID, s.requestID));
      && KeyOf(s) in w.computed && x.computed == w.computed && x.sends == w.sends && x.pending == w.pending
      && Reply(s.conn, ResponseFor(KeyOf(s), w.computed[KeyOf(s)])) in x.toServer
  {
    assert ExtensionOk(w, w.sends[i].browserID);
    hide RowsAreKnown, ExtensionsOk;
  }

  /** The outcome of the execution that call `i` waits for, if the handler ends with
      `result`. */
  function Ending(w: World, i: nat, result: CommandOutcome): CommandOutcome
    requires i < |w.sends|
  {
    if Flag(w, w.sends[i].browserID, w.sends[i].requestID) == Some(true) then Failed(CANCELLED) else result
  }

  function ReplyTo(s: Send, o: CommandOutcome): Reply {
    Reply(s.conn, ResponseFor(KeyOf(s), o))
  }

  lemma HandlerAnswers(actions: seq<Action>, i: nat, result: CommandOutcome)
    requires Awaits(Run(actions), i)
    requires IsRunning(Run(actions), Run(actions).sends[i].browserID, Run(actions).sends[i].requestID)
    ensures var w := Run(actions);
      var s, o := w.sends[i], Ending(w, i, result);
      var x := Run(actions + [Finish(s.browserID, s.requestID, result)] + [Respond(s.browserID, s.requestID)]);
      && Answers(x, ReplyTo(s, o), i) && HasRow(x, i) && x.sends[i] == s
      && KeyOf(s) in x.computed && x.computed[KeyOf(s)] == o
  {
    var w := Run(actions);
    var s := w.sends[i];
    var finished := actions + [Finish(s.browserID, s.requestID, result)];
    RunMore(actions, Finish(s.browserID, s.requestID, result));
    RunMore(finished, Respond(s.browserID, s.requestID));
    EveryRunKeepsInv(actions);
    EveryRunKeepsInv(finished);
    assert ExtensionsOk(Run(finished));
    hide Step, Run, Inv, ExtensionsOk, RowsAreKnown, ExtensionOf, Flag;
    FinishStep(w, i, result);
    RespondStep(Run(finished), i);
  }

  lemma AnswerReturns(actions: seq<Action>, reply: Reply, i: nat)
    requires Answers(Run(actions), reply, i) && HasRow(Run(actions), i) && Run(actions).sends[i].phase == Sent
    requires KeyOf(Run(actions).sends[i]) in Run(actions).computed
    ensures var w, x := Run(actions), Run(actions + [TakeResponse(reply)] + [PushResult(i)] + [Receive(i)]);
      i < |x.sends| && x.sends[i].phase == Returned(Told(w.computed[KeyOf(w.sends[i])]))
  {
    var taken := actions + [TakeResponse(reply)];
    var pushed := taken + [PushResult(i)];
    RunMore(actions, TakeResponse(reply));
    RunMore(taken, PushResult(i));
    RunMore(pushed, Receive(i));
    assert pushed[..|actions|] == actions;
    RunsGrow(pushed, |actions|);
    hide Step, Run, Answers, HasRow;
    ReplyIsDelivered(actions, reply, i);
    ResultIsPushed(taken, i);
    ResponseIsReturned(pushed, i);
  }

  /** The five steps from the end of a handler to the return of `Send`. */
  function LastSteps(w: World, i: nat, result: CommandOutcome): seq<Action>
    requires i < |w.sends|
  {
    var s := w.sends[i];
    [Finish(s.browserID, s.requestID, result), Respond(s.browserID, s.requestID),
     TakeResponse(ReplyTo(s, Ending(w, i, result))), PushResult(i), Receive(i)]
  }

  /** End to end: whatever happened before, a handler's result reaches the caller that
      waits for it; CANCELLED does, if a cancellation had reached the handler. */
  lemma ResultReachesTheCaller(actions: seq<Action>, i: nat, result: CommandOutcome)
    requires Awaits(Run(actions), i)
    requires IsRunning(Run(actions), Run(actions).sends[i].browserID, Run(actions).sends[i].requestID)
    ensures var w := Run(actions);
      var s, x := w.sends[i], Run(actions + LastSteps(w, i, result));
      i < |x.sends| && x.sends[i].phase ==
        Returned(Told(if WasCancelled(actions, s.browserID, s.requestID) then Failed(CANCELLED) else result))
  {
    var w := Run(actions);
    var s, o := w.sends[i], Ending(w, i, result);
    AbortedIffCancelled(actions, s.browserID, s.requestID);
    hide Run, WasCancelled, Answers, HasRow, ReplyTo, Told, ExtensionOf;
    var answered := actions + [Finish(s.browserID, s.requestID, result)] + [Respond(s.browserID, s.requestID)];
    HandlerAnswers(actions, i, result);
    AnswerReturns(answered, ReplyTo(s, o), i);
    assert actions + LastSteps(w, i, result) ==
      answered + [TakeResponse(ReplyTo(s, o))] + [PushResult(i)] + [Receive(i)];
  }
}
