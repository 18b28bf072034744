/** Lifecycle of managed debugger sessions: reference-counted consumer leases per
    tab over one debugger attachment (chrome-extension/src/cdp-session-manager.js).

    Every function on `World` is one atomic step, that is, the code between two
    awaits.  `debugger.attach` and `debugger.detach` settle at some later step. */
module CdpSessions {
  import opened CdpConsumers
  import opened CdpTargets

  datatype SessionState = Attaching | Attached | Detaching | Detached | Failed

  datatype SessionView = SessionView(
    key: nat,
    state: SessionState,
    closeRequested: string,
    consumers: map<string, Consumer>,
    childConsumerCount: int,
    tree: TreeView,
    attachCalls: nat,
    attachPending: bool,
    attachSucceeded: bool,
    detachCalls: nat,
    detachPending: bool)

  /** One session object; the ghost fields count and track its debugger calls. */
  class Session {
    const key: nat
    var state: SessionState
    var closeRequested: string
    var consumers: map<string, Consumer>
    var childConsumerCount: int
    var childSessions: map<string, Child>
    var frameContexts: map<string, Contexts>
    ghost var attachCalls: nat
    ghost var attachPending: bool
    ghost var attachSucceeded: bool
    ghost var detachCalls: nat
    ghost var detachPending: bool

    ghost function Tree(): TreeView
      reads this`childSessions, this`frameContexts
    {
      TreeView(childSessions, frameContexts)
    }

    ghost function View(): SessionView
      reads this
    {
      SessionView(key, state, closeRequested, consumers, childConsumerCount, Tree(),
                  attachCalls, attachPending, attachSucceeded, detachCalls, detachPending)
    }

    /** Every consumer is filed under its own id. */
    ghost predicate Filed()
      reads this
    {
      forall id :: id in consumers ==> consumers[id].id == id
    }

    /** `createSession`, followed by the synchronous start of `attachSession`. */
    constructor (tab: nat)
      ensures View() == NewSession(tab)
    {
      key := tab;
      state, closeRequested := Attaching, "";
      consumers, childConsumerCount := map[], 0;
      childSessions, frameContexts := map[], map[];
      attachCalls, attachPending, attachSucceeded := 1, true, false;
      detachCalls, detachPending := 0, false;
    }

    method Add(c: Consumer)
      modifies this`consumers, this`childConsumerCount
      ensures View() == Joined(old(View()), c)
    {
      consumers := consumers[c.id := c];
      if c.includeChildTargets { childConsumerCount := childConsumerCount + 1; }
    }

    method Remove(c: Consumer)
      modifies this`consumers, this`childConsumerCount
      ensures View() == Left(old(View()), c)
      ensures consumers.Values <= old(consumers).Values
    {
      consumers := consumers - {c.id};
      if c.includeChildTargets {
        childConsumerCount := if childConsumerCount > 0 then childConsumerCount - 1 else 0;
      }
    }

    /** The consumer loop of `handleEvent`. */
    method FanOut(source: string, wanted: set<Consumer>, size: nat, l: Limits)
      requires Filed() && LimitsAccepted(l)
      requires forall c: Consumer :: c in consumers.Values ==> c.queueBytes == Bytes(c.queue) && c.limits == l
      modifies consumers.Values
      ensures forall c: Consumer :: c in consumers.Values ==>
        c.View() == if Wants(c, source, wanted) then OfferView(old(c.View()), size, l) else old(c.View())
      ensures forall c: Consumer :: c in consumers.Values <==> IsRegistered(consumers, c)
    {
      var todo := consumers.Values;
      while todo != {}
        invariant todo <= consumers.Values
        invariant forall c: Consumer :: c in todo ==> c.View() == old(c.View())
        invariant forall c: Consumer :: c in consumers.Values && c !in todo ==>
          c.View() == if Wants(c, source, wanted) then OfferView(old(c.View()), size, l) else old(c.View())
        decreases todo
      {
        var c :| c in todo;
        todo := todo - {c};
        assert c.View() == old(c.View());
        if Wants(c, source, wanted) {
          c.Enqueue(size);
        }
      }
    }

    /** `deactivateConsumers`; with the detach callbacks left out,
        `notifyAndDeactivateConsumers` is the same loop. */
    method DeactivateConsumers()
      requires Filed()
      modifies this`consumers, this`childConsumerCount, consumers.Values
      ensures View() == WithoutConsumers(old(View()))
      ensures forall c: Consumer :: c in old(consumers).Values ==> c.View() == DeactivateView(old(c.View()))
      ensures forall c: Consumer :: c in old(consumers).Values <==> IsRegistered(old(consumers), c)
    {
      var todo := consumers.Values;
      while todo != {}
        invariant todo <= old(consumers).Values
        invariant View() == old(View())
        invariant forall c: Consumer :: c in todo ==> c.View() == old(c.View())
        invariant forall c: Consumer :: c in old(consumers).Values && c !in todo ==>
          c.View() == DeactivateView(old(c.View()))
        decreases todo
      {
        var c :| c in todo;
        todo := todo - {c};
        c.Deactivate();
      }
      consumers := map[];
      childConsumerCount := 0;
    }

    /** The two `clear()` calls of `closeSession` and `handleDetach`. */
    method ClearTree()
      modifies this`childSessions, this`frameContexts
      ensures View() == old(View()).(tree := EMPTY_TREE)
    {
      childSessions := map[];
      frameContexts := map[];
    }

    /** `handleEvent` up to the fan-out. */
    method HandleEvent(source: string, e: Event)
      modifies this`childSessions, this`frameContexts
      ensures View() == old(View()).(tree := EventView(old(Tree()), source, childConsumerCount > 0, e))
    {
      if source != "" && source !in childSessions { return; }
      match e
      case AttachedToTarget(id, isIframe) =>
        if childConsumerCount > 0 && id != "" && isIframe {
          childSessions := childSessions[id := Child(source)];
        }
      case DetachedFromTarget(id) =>
        RemoveChildSessionTree(id);
      case ContextCreated(frameId, contextId, isDefault) =>
        if frameId != "" {
          var contexts := if frameId in frameContexts then frameContexts[frameId] else map[];
          contexts := contexts[KeyFor(source, contextId) := Context(contextId, source, isDefault)];
          frameContexts := frameContexts[frameId := contexts];
        }
      case ContextDestroyed(contextId) =>
        var key := KeyFor(source, contextId);
        RewriteFrames((contexts: Contexts) => contexts - {key});
      case ContextsCleared =>
        if source != "" {
          RewriteFrames(contexts => Surviving(contexts, {source}));
        } else {
          RewriteFrames(ChildContexts);
        }
      case OtherEvent =>
    }

    /** The synchronous part of `disableAutoAttach`, once it knows that it is enabled. */
    method DisableAutoAttach()
      modifies this`childSessions, this`frameContexts
      ensures View() == old(View()).(tree := AutoAttachOffView(old(Tree())))
    {
      childSessions := map[];
      RewriteFrames(RootContexts);
    }

    /** The loop all context removals share: filter each frame's contexts in place,
        then delete the frame if nothing is left. */
    method RewriteFrames(keep: Contexts -> Contexts)
      modifies this`frameContexts
      ensures frameContexts == Rewritten(old(frameContexts), keep)
    {
      var todo := frameContexts.Keys;
      ghost var before := frameContexts;
      while todo != {}
        invariant todo <= before.Keys && frameContexts.Keys <= before.Keys
        invariant forall f :: f in todo ==> f in frameContexts && frameContexts[f] == before[f]
        invariant forall f :: f in before && f !in todo ==>
          if keep(before[f]) == map[] then f !in frameContexts
          else f in frameContexts && frameContexts[f] == keep(before[f])
        decreases todo
      {
        var f :| f in todo;
        todo := todo - {f};
        var kept := keep(frameContexts[f]);
        if |kept| == 0 {
          frameContexts := frameContexts - {f};
        } else {
          frameContexts := frameContexts[f := kept];
        }
      }
    }

    /** Live children of `sessionId`, in some order. */
    method ChildrenOf(sessionId: string) returns (found: seq<string>)
      ensures forall c :: c in found <==> c in childSessions && childSessions[c].parentSessionId == sessionId
    {
      found := [];
      var todo := childSessions.Keys;
      while todo != {}
        invariant todo <= childSessions.Keys
        invariant forall c :: c in found <==>
          c in childSessions && c !in todo && childSessions[c].parentSessionId == sessionId
        decreases todo
      {
        var c :| c in todo;
        todo := todo - {c};
        if childSessions[c].parentSessionId == sessionId {
          found := found + [c];
        }
      }
    }

    /** One turn of the removal loop: the children of `id` are collected, then `id`
        and its contexts are deleted. */
    method RemoveOne(id: string) returns (found: seq<string>)
      modifies this`childSessions, this`frameContexts
      ensures forall c :: c in found <==> c in old(childSessions) && old(childSessions)[c].parentSessionId == id
      ensures childSessions == old(childSessions) - {id}
      ensures frameContexts == Pruned(old(frameContexts), {id})
    {
      found := ChildrenOf(id);
      childSessions := childSessions - {id};
      RewriteFrames(contexts => Surviving(contexts, {id}));
    }

    /** Deletes exactly the subtree of `root`, and ends even when re-parenting has
        made the parent links cyclic: each turn either deletes a live child or uses
        up a pending id that is not live. */
    method RemoveChildSessionTree(root: string)
      modifies this`childSessions, this`frameContexts
      ensures Tree() == RemoveTreeView(old(Tree()), root)
    {
      ghost var v := Tree();
      var pending := [root];
      ghost var done: set<string> := {};
      ReachesSelf(v.children, root);
      while pending != []
        invariant Removing(v, Tree(), root, pending, done)
        decreases |childSessions|, DeadCount(pending, childSessions.Keys)
      {
        var id := pending[|pending| - 1];
        ghost var w := Tree();
        var found := RemoveOne(id);
        RemovalTurn(v, w, root, pending, done, found);
        MeasureFalls(pending, found, w.children, id);
        pending := pending[..|pending| - 1] + found;
        done := done + {id};
      }
      FrontierEnds(v.children, root, done);
    }
  }

  /** `mapped` is the manager's map from tab to session; `sessions` also holds the
      sessions that have left it; `queues` holds every consumer ever registered and
      `home` the session it registered with. */
  datatype World = World(
    disposed: bool,
    mapped: map<nat, Session>,
    sessions: map<Session, SessionView>,
    queues: map<Consumer, QueueView>,
    home: map<Consumer, Session>)

  datatype Refusal = ManagerClosed | FlatSessionsUnavailable | Cancelled | TooManySessions
                   | DuplicateConsumer | TooManyConsumers

  datatype AcquireResult = Registered(session: Session) | Refused(refusal: Refusal)

  datatype Settings = Settings(limits: Limits, supportsFlatSessions: bool)

  // ---------------------------------------------------------------------
  // Atomic steps
  // ---------------------------------------------------------------------

  function NewSession(tab: nat): SessionView {
    SessionView(tab, Attaching, "", map[], 0, EMPTY_TREE, 1, true, false, 0, false)
  }

  function Unmapped(mapped: map<nat, Session>, tab: nat, s: Session): map<nat, Session> {
    if tab in mapped && mapped[tab] == s then mapped - {tab} else mapped
  }

  /** `c` is filed under its own id. */
  predicate IsRegistered(consumers: map<string, Consumer>, c: Consumer) {
    c.id in consumers && consumers[c.id] == c
  }

  function AllDeactivated(queues: map<Consumer, QueueView>, consumers: map<string, Consumer>)
    : map<Consumer, QueueView>
  {
    map c | c in queues :: if IsRegistered(consumers, c) then DeactivateView(queues[c]) else queues[c]
  }

  /** Only the record of `s` changes. */
  function Restated(w: World, s: Session, v: SessionView): World {
    w.(sessions := w.sessions[s := v])
  }

  function WithoutConsumers(v: SessionView): SessionView {
    v.(consumers := map[], childConsumerCount := 0)
  }

  /** `s` leaves the tab map (if it is in it) and all its consumers are deactivated,
      by `deactivateConsumers` or `notifyAndDeactivateConsumers`. */
  function Departed(w: World, s: Session, v: SessionView): World
    requires s in w.sessions
  {
    World(w.disposed,
          Unmapped(w.mapped, w.sessions[s].key, s),
          w.sessions[s := WithoutConsumers(v)],
          AllDeactivated(w.queues, w.sessions[s].consumers),
          w.home)
  }

  /** What `closeSession` makes of an attached session before it empties it. */
  function Closing(v: SessionView): SessionView {
    v.(state := Detaching, tree := EMPTY_TREE, detachCalls := v.detachCalls + 1, detachPending := true)
  }

  /** `closeSession` up to its await. */
  function Close(w: World, s: Session, reason: string, notify: bool): World
    requires s in w.sessions
  {
    var v := w.sessions[s];
    match v.state
    case Attaching =>
      if notify then
        Restated(w, s, WithoutConsumers(v.(closeRequested := reason)))
          .(queues := AllDeactivated(w.queues, v.consumers))
      else Restated(w, s, v.(closeRequested := reason))
    case Attached => Departed(w, s, Closing(v))
    case _ => w
  }

  /** Every mapped session is a known one. */
  predicate Linked(w: World) {
    forall tab :: tab in w.mapped ==> w.mapped[tab] in w.sessions
  }

  /** `createSession`, and the call of `attachSession` that starts the attachment. */
  function Created(w: World, tab: nat, newcomer: Session): World {
    w.(mapped := w.mapped[tab := newcomer], sessions := w.sessions[newcomer := NewSession(tab)])
  }

  /** `acquire` up to its first await; `newcomer` becomes the session if the tab has none. */
  function Acquire(w: World, g: Settings, tab: nat, aborted: bool, newcomer: Session, c: Consumer)
    : (World, AcquireResult)
    requires Linked(w)
  {
    if w.disposed then (w, Refused(ManagerClosed))
    else if c.includeChildTargets && !g.supportsFlatSessions then (w, Refused(FlatSessionsUnavailable))
    else if aborted then (w, Refused(Cancelled))
    else if tab !in w.mapped then
      if |w.mapped| >= g.limits.maxSessions then (w, Refused(TooManySessions))
      else
        Register(Created(w, tab, newcomer), g, newcomer, c)
    else Register(w, g, w.mapped[tab], c)
  }

  /** `c` added to the consumers of `v`. */
  function Joined(v: SessionView, c: Consumer): SessionView {
    v.(consumers := v.consumers[c.id := c],
       childConsumerCount := v.childConsumerCount + (if c.includeChildTargets then 1 else 0))
  }

  function WithConsumer(w: World, s: Session, c: Consumer): World
    requires s in w.sessions
  {
    w.(sessions := w.sessions[s := Joined(w.sessions[s], c)],
       queues := w.queues[c := NEW_QUEUE],
       home := w.home[c := s])
  }

  function Register(w: World, g: Settings, s: Session, c: Consumer): (World, AcquireResult)
    requires s in w.sessions
  {
    var v := w.sessions[s];
    if c.id in v.consumers then (w, Refused(DuplicateConsumer))
    else if |v.consumers| >= g.limits.maxConsumersPerSession then (w, Refused(TooManyConsumers))
    else
      (WithConsumer(w, s, c), Registered(s))
  }

  /** `debugger.attach` succeeded: the rest of `attachSession`. */
  function AttachResolved(w: World, s: Session): World
    requires s in w.sessions
  {
    var v := w.sessions[s].(state := Attached, attachPending := false, attachSucceeded := true);
    var attached := Restated(w, s, v);
    if v.closeRequested != "" || |v.consumers| == 0 || w.disposed
    then Close(attached, s, if v.closeRequested != "" then v.closeRequested else "unused_session", false)
    else attached
  }

  /** `debugger.attach` failed. */
  function AttachRejected(w: World, s: Session): World
    requires s in w.sessions
  {
    Departed(w, s, w.sessions[s].(state := Failed, attachPending := false))
  }

  /** `debugger.detach` settled, either way. */
  function DetachSettled(w: World, s: Session): World
    requires s in w.sessions
  {
    Restated(w, s, w.sessions[s].(state := Detached, detachPending := false))
  }

  /** The end of `releaseConsumer`, after the await of `disableAutoAttach` if there was one. */
  function ReleaseTail(w: World, s: Session): World
    requires s in w.sessions
  {
    var v := w.sessions[s];
    if |v.consumers| > 0 then w
    else if v.state == Attaching then
      Restated(w, s, v.(closeRequested := "last_consumer_released"))
    else Close(w, s, "last_consumer_released", false)
  }

  function Left(v: SessionView, c: Consumer): SessionView {
    v.(consumers := v.consumers - {c.id},
       childConsumerCount :=
         if !c.includeChildTargets then v.childConsumerCount
         else if v.childConsumerCount > 0 then v.childConsumerCount - 1
         else 0)
  }

  /** `c` deactivated and out of its session's consumers. */
  function Unjoined(w: World, s: Session, c: Consumer): World
    requires s in w.sessions && c in w.queues
  {
    w.(queues := w.queues[c := DeactivateView(w.queues[c])],
       sessions := w.sessions[s := Left(w.sessions[s], c)])
  }

  /** `releaseConsumer`.  When other consumers remain the tail is a no-op, so it is
      harmless that it then runs after an await. */
  function Release(w: World, s: Session, c: Consumer): World
    requires s in w.sessions && c in w.queues
  {
    if !w.queues[c].active then w
    else
      if !IsRegistered(w.sessions[s].consumers, c) then w.(queues := w.queues[c := DeactivateView(w.queues[c])])
      else ReleaseTail(Unjoined(w, s, c), s)
  }

  /** `acquire` once the session is ready: it succeeds, or the consumer is released. */
  function FinishAcquire(w: World, s: Session, c: Consumer, aborted: bool): World
    requires s in w.sessions && c in w.queues
  {
    if w.queues[c].active && w.sessions[s].state == Attached && !aborted then w else Release(w, s, c)
  }

  /** `handleDetach`. */
  function BrowserDetach(w: World, tab: nat): World
    requires Linked(w)
  {
    if tab !in w.mapped then w
    else
      var s := w.mapped[tab];
      Departed(w, s, w.sessions[s].(state := Detached, tree := EMPTY_TREE))
  }

  /** What `detachAll` leaves of one session. */
  function ClosedView(v: SessionView, reason: string): SessionView {
    match v.state
    case Attaching => WithoutConsumers(v.(closeRequested := reason))
    case Attached => WithoutConsumers(Closing(v))
    case _ => v
  }

  predicate Closable(v: SessionView) {
    v.state == Attaching || v.state == Attached
  }

  /** `c` is registered with a session of `group` that closing will empty. */
  predicate IsClosing(w: World, group: set<Session>, c: Consumer)
    requires group <= w.sessions.Keys
  {
    && c in w.home && w.home[c] in group
    && Closable(w.sessions[w.home[c]])
    && IsRegistered(w.sessions[w.home[c]].consumers, c)
  }

  /** Closing a set of sessions with notification, in no particular order. */
  ghost function CloseMany(w: World, group: set<Session>, reason: string): World
    requires group <= w.sessions.Keys
  {
    World(
      w.disposed,
      map tab | tab in w.mapped &&
        !(w.mapped[tab] in group && w.sessions[w.mapped[tab]].state == Attached &&
          w.sessions[w.mapped[tab]].key == tab) :: w.mapped[tab],
      map s | s in w.sessions :: if s in group then ClosedView(w.sessions[s], reason) else w.sessions[s],
      map c | c in w.queues :: if IsClosing(w, group, c) then DeactivateView(w.queues[c]) else w.queues[c],
      w.home)
  }

  ghost function DetachAll(w: World, reason: string): World
    requires Linked(w)
  {
    CloseMany(w, w.mapped.Values, reason)
  }

  ghost function Dispose(w: World): World
    requires Linked(w)
  {
    if w.disposed then w else DetachAll(w.(disposed := true), "manager_disposed")
  }

  /** Whether `handleEvent` takes notice: of attached tabs, and of live child sessions. */
  predicate Hears(w: World, tab: nat, source: string)
    requires Linked(w)
  {
    tab in w.mapped &&
    var v := w.sessions[w.mapped[tab]];
    v.state == Attached && (source == "" || source in v.tree.children)
  }

  /** The fan-out of `handleEvent`: `wanted` are the consumers that asked for this kind of
      event. */
  function Offered(w: World, g: Settings, s: Session, source: string, wanted: set<Consumer>, size: nat): World
    requires LimitsAccepted(g.limits) && s in w.sessions
  {
    w.(queues := map c | c in w.queues ::
         if IsRegistered(w.sessions[s].consumers, c) && Wants(c, source, wanted)
         then OfferView(w.queues[c], size, g.limits)
         else w.queues[c])
  }

  predicate Wants(c: Consumer, source: string, wanted: set<Consumer>) {
    c in wanted && (source == "" || c.includeChildTargets)
  }

  /** `handleEvent`: the child sessions and contexts first, then the fan-out. */
  ghost function Emit(w: World, g: Settings, tab: nat, source: string, e: Event, wanted: set<Consumer>, size: nat)
    : World
    requires LimitsAccepted(g.limits) && Linked(w)
  {
    if !Hears(w, tab, source) then w
    else
      var s := w.mapped[tab];
      Offered(Restated(w, s, Heard(w.sessions[s], source, e)), g, s, source, wanted, size)
  }

  ghost function Heard(v: SessionView, source: string, e: Event): SessionView {
    v.(tree := EventView(v.tree, source, v.childConsumerCount > 0, e))
  }

  /** The synchronous part of `disableAutoAttach`, whatever the session has become. */
  function AutoAttachOff(w: World, s: Session): World
    requires s in w.sessions
  {
    Restated(w, s, w.sessions[s].(tree := AutoAttachOffView(w.sessions[s].tree)))
  }

  function ResumeDrain(w: World, c: Consumer): World
    requires c in w.queues
  {
    if w.queues[c].draining then w.(queues := w.queues[c := DrainView(w.queues[c])]) else w
  }

  // ---------------------------------------------------------------------
  // Invariant
  // ---------------------------------------------------------------------

  function ChildIds(consumers: map<string, Consumer>): set<string> {
    set id | id in consumers && consumers[id].includeChildTargets
  }

  predicate IsMapped(w: World, s: Session)
    requires s in w.sessions
  {
    w.sessions[s].key in w.mapped && w.mapped[w.sessions[s].key] == s
  }

  /** Tabs are mapped to sessions of their own, within the session limit. */
  ghost predicate MapInv(w: World, g: Settings) {
    && Linked(w)
    && |w.mapped| <= g.limits.maxSessions
    && forall tab :: tab in w.mapped ==> w.sessions[w.mapped[tab]].key == tab
  }

  /** Which states go with being mapped, and with which debugger calls. */
  predicate CallsOk(v: SessionView, mapped: bool) {
    && v.attachCalls == 1
    && v.detachCalls <= 1
    && (v.detachCalls == 1 ==> v.attachSucceeded && !mapped)
    && (v.attachPending ==> !v.attachSucceeded && (v.state == Attaching || v.state == Detached))
    && match v.state
       case Attaching => mapped && v.attachPending && !v.detachPending
       case Attached => mapped && v.attachSucceeded && v.detachCalls == 0 && !v.detachPending
       case Detaching => !mapped && v.detachCalls == 1 && v.detachPending
       case Detached => !mapped && !v.detachPending
       case Failed => !mapped && !v.attachSucceeded && !v.attachPending && !v.detachPending
  }

  /** The consumer count is within its limit, and zero where it must be. */
  predicate CountsOk(v: SessionView, mapped: bool, g: Settings) {
    && |v.consumers| <= g.limits.maxConsumersPerSession
    && v.childConsumerCount == |ChildIds(v.consumers)|
    && (!mapped ==> v.consumers == map[])
  }

  /** A mapped session without consumers is on its way out. */
  predicate UnusedIsClosing(v: SessionView) {
    v.consumers == map[] ==> v.state != Attached && (v.state == Attaching ==> v.closeRequested != "")
  }

  /** After `dispose`, only attachments in progress remain, each about to be closed. */
  predicate DisposedOk(v: SessionView, mapped: bool) {
    mapped ==> v.state == Attaching && v.closeRequested != "" && v.consumers == map[]
  }

  /** Only an attached session has child sessions or contexts. */
  ghost predicate TreeOk(v: SessionView) {
    WellFormed(v.tree) && (v.tree != EMPTY_TREE ==> v.state == Attached)
  }

  /** Registered consumers are active and filed under their own id. */
  ghost predicate RegisteredOk(w: World, s: Session)
    requires s in w.sessions
  {
    forall id :: id in w.sessions[s].consumers ==>
      var c := w.sessions[s].consumers[id];
      c.id == id && c in w.queues && w.queues[c].active && c in w.home && w.home[c] == s
  }

  ghost predicate SessionOk(w: World, g: Settings, s: Session)
    requires s in w.sessions
  {
    && CallsOk(w.sessions[s], IsMapped(w, s))
    && CountsOk(w.sessions[s], IsMapped(w, s), g)
    && UnusedIsClosing(w.sessions[s])
    && (w.disposed ==> DisposedOk(w.sessions[s], IsMapped(w, s)))
    && TreeOk(w.sessions[s])
    && RegisteredOk(w, s)
  }

  /** An active consumer is registered where it belongs. */
  ghost predicate ConsumerOk(w: World, c: Consumer)
    requires c in w.queues
  {
    && c in w.home && w.home[c] in w.sessions
    && (w.queues[c].active ==>
          IsRegistered(w.sessions[w.home[c]].consumers, c))
  }

  ghost predicate Inv(w: World, g: Settings) {
    && LimitsAccepted(g.limits)
    && MapInv(w, g)
    && (forall s :: s in w.sessions ==> SessionOk(w, g, s))
    && (forall c :: c in w.queues ==> ConsumerOk(w, c))
  }

  // ---------------------------------------------------------------------
  // One step keeps the invariant
  // ---------------------------------------------------------------------

  /** Everything but session `s` itself is in order. */
  ghost predicate RestOk(w: World, g: Settings, s: Session) {
    && LimitsAccepted(g.limits) && MapInv(w, g) && s in w.sessions
    && (forall t :: t in w.sessions && t != s ==> SessionOk(w, g, t))
    && (forall c :: c in w.queues ==> ConsumerOk(w, c))
  }

  lemma ChildIdsOfJoin(consumers: map<string, Consumer>, c: Consumer)
    requires c.id !in consumers
    ensures |ChildIds(consumers[c.id := c])| == |ChildIds(consumers)| + (if c.includeChildTargets then 1 else 0)
  {
    var more := if c.includeChildTargets then {c.id} else {};
    assert ChildIds(consumers[c.id := c]) == ChildIds(consumers) + more;
  }

  lemma ChildIdsOfLeave(consumers: map<string, Consumer>, c: Consumer)
    requires c.id in consumers && consumers[c.id] == c
    ensures |ChildIds(consumers - {c.id})| == |ChildIds(consumers)| - (if c.includeChildTargets then 1 else 0)
  {
    var less := if c.includeChildTargets then {c.id} else {};
    assert ChildIds(consumers - {c.id}) == ChildIds(consumers) - less;
  }

  lemma SubsetIsSmaller<T>(a: set<T>, b: set<T>)
    requires a <= b
    ensures |a| <= |b|
  {
    assert b == a + (b - a);
  }

  /** A step elsewhere: `t` keeps its record, its place, and the state of its own consumers. */
  lemma AloofSession(w: World, x: World, g: Settings, t: Session)
    requires t in w.sessions && SessionOk(w, g, t) && t in x.sessions && x.sessions[t] == w.sessions[t]
    requires IsMapped(x, t) == IsMapped(w, t) && x.disposed == w.disposed
    requires forall c :: c in w.queues && c in w.home && w.home[c] == t ==>
      c in x.queues && x.queues[c] == w.queues[c] && c in x.home && x.home[c] == t
    ensures SessionOk(x, g, t)
  {
  }

  // --- a session whose consumers and place in the map do not change

  lemma RestatedRest(w: World, g: Settings, s: Session, v: SessionView)
    requires RestOk(w, g, s)
    requires v.key == w.sessions[s].key && v.consumers == w.sessions[s].consumers
    ensures RestOk(Restated(w, s, v), g, s)
    ensures RegisteredOk(w, s) ==> RegisteredOk(Restated(w, s, v), s)
  {
    var x := Restated(w, s, v);
    forall t | t in x.sessions && t != s
      ensures SessionOk(x, g, t)
    {
      assert SessionOk(w, g, t);
      assert RegisteredOk(x, t);
    }
    forall c | c in x.queues
      ensures ConsumerOk(x, c)
    {
      assert ConsumerOk(w, c);
    }
  }

  lemma RestatedKeepsInv(w: World, g: Settings, s: Session, v: SessionView)
    requires RestOk(w, g, s) && RegisteredOk(w, s)
    requires v.key == w.sessions[s].key && v.consumers == w.sessions[s].consumers
    requires CallsOk(v, IsMapped(w, s)) && CountsOk(v, IsMapped(w, s), g) && UnusedIsClosing(v) && TreeOk(v)
    requires w.disposed ==> DisposedOk(v, IsMapped(w, s))
    ensures Inv(Restated(w, s, v), g)
  {
    RestatedRest(w, g, s, v);
    assert SessionOk(Restated(w, s, v), g, s);
  }

  // --- a session that leaves the map without consumers

  lemma DepartedMap(w: World, g: Settings, s: Session, v: SessionView)
    requires MapInv(w, g) && s in w.sessions && v.key == w.sessions[s].key
    ensures var x := Departed(w, s, v);
            && MapInv(x, g) && !IsMapped(x, s)
            && forall t :: t in w.sessions && t != s ==> IsMapped(x, t) == IsMapped(w, t)
  {
    var x := Departed(w, s, v);
    assert x.mapped.Keys <= w.mapped.Keys;
    SubsetIsSmaller(x.mapped.Keys, w.mapped.Keys);
  }

  lemma DepartedSession(w: World, g: Settings, s: Session, v: SessionView, t: Session)
    requires RestOk(w, g, s) && RegisteredOk(w, s) && v.key == w.sessions[s].key && t in w.sessions && t != s
    ensures SessionOk(Departed(w, s, v), g, t)
  {
    DepartedMap(w, g, s, v);
    assert SessionOk(w, g, t);
  }

  lemma DepartedConsumer(w: World, g: Settings, s: Session, v: SessionView, c: Consumer)
    requires RestOk(w, g, s) && RegisteredOk(w, s) && c in w.queues
    ensures ConsumerOk(Departed(w, s, v), c)
  {
    assert ConsumerOk(w, c);
    if w.queues[c].active && w.home[c] == s {
      assert w.sessions[s].consumers[c.id] == c;
    }
  }

  lemma DepartedKeepsInv(w: World, g: Settings, s: Session, v: SessionView)
    requires RestOk(w, g, s) && RegisteredOk(w, s)
    requires v.key == w.sessions[s].key && CallsOk(WithoutConsumers(v), false) && TreeOk(v)
    ensures Inv(Departed(w, s, v), g)
  {
    var x := Departed(w, s, v);
    DepartedMap(w, g, s, v);
    forall t | t in x.sessions
      ensures SessionOk(x, g, t)
    {
      if t != s {
        DepartedSession(w, g, s, v, t);
      } else {
        assert ChildIds(map[]) == {};
      }
    }
    forall c | c in x.queues
      ensures ConsumerOk(x, c)
    {
      DepartedConsumer(w, g, s, v, c);
    }
  }

  // --- the steps

  lemma PartsOfInv(w: World, g: Settings, s: Session)
    requires Inv(w, g) && s in w.sessions
    ensures RestOk(w, g, s) && SessionOk(w, g, s) && RegisteredOk(w, s)
  {
  }

  /** `closeSession` on an attached session, mapped or not. */
  lemma CloseAttachedKeepsInv(w: World, g: Settings, s: Session, reason: string, notify: bool)
    requires RestOk(w, g, s) && RegisteredOk(w, s)
    requires var v := w.sessions[s];
             && v.state == Attached && v.attachCalls == 1 && v.attachSucceeded && !v.attachPending
             && v.detachCalls == 0
    ensures Inv(Close(w, s, reason, notify), g)
  {
    hide MapInv, RegisteredOk, WellFormed;
    EmptyTreeIsWellFormed();
    DepartedKeepsInv(w, g, s, Closing(w.sessions[s]));
  }

  lemma AttachRejectedKeepsInv(w: World, g: Settings, s: Session)
    requires Inv(w, g) && s in w.sessions && w.sessions[s].attachPending
    ensures Inv(AttachRejected(w, s), g)
  {
    PartsOfInv(w, g, s);
    hide Inv, RestOk, RegisteredOk, MapInv, WellFormed;
    DepartedKeepsInv(w, g, s, w.sessions[s].(state := Failed, attachPending := false));
  }

  lemma DepartedDetachedKeepsInv(w: World, g: Settings, s: Session)
    requires Inv(w, g) && s in w.sessions && IsMapped(w, s)
    ensures Inv(Departed(w, s, w.sessions[s].(state := Detached, tree := EMPTY_TREE)), g)
  {
    PartsOfInv(w, g, s);
    hide Inv, RestOk, RegisteredOk, MapInv, WellFormed;
    EmptyTreeIsWellFormed();
    DepartedKeepsInv(w, g, s, w.sessions[s].(state := Detached, tree := EMPTY_TREE));
  }

  lemma BrowserDetachKeepsInv(w: World, g: Settings, tab: nat)
    requires Inv(w, g)
    ensures Inv(BrowserDetach(w, tab), g)
  {
    if tab in w.mapped {
      assert IsMapped(w, w.mapped[tab]);
      hide Inv, Departed, IsMapped;
      DepartedDetachedKeepsInv(w, g, w.mapped[tab]);
    }
  }

  lemma DetachSettledKeepsInv(w: World, g: Settings, s: Session)
    requires Inv(w, g) && s in w.sessions && w.sessions[s].detachPending
    ensures Inv(DetachSettled(w, s), g)
  {
    PartsOfInv(w, g, s);
    hide Inv, RestOk, RegisteredOk, MapInv, WellFormed;
    RestatedKeepsInv(w, g, s, w.sessions[s].(state := Detached, detachPending := false));
  }

  lemma AttachResolvedKeepsInv(w: World, g: Settings, s: Session)
    requires Inv(w, g) && s in w.sessions && w.sessions[s].attachPending
    ensures Inv(AttachResolved(w, s), g)
  {
    PartsOfInv(w, g, s);
    hide Inv, RestOk, RegisteredOk, MapInv, WellFormed;
    var v := w.sessions[s].(state := Attached, attachPending := false, attachSucceeded := true);
    if v.closeRequested != "" || |v.consumers| == 0 || w.disposed {
      RestatedRest(w, g, s, v);
      CloseAttachedKeepsInv(Restated(w, s, v), g, s,
                            if v.closeRequested != "" then v.closeRequested else "unused_session", false);
    } else {
      RestatedKeepsInv(w, g, s, v);
    }
  }

  lemma ReleaseTailKeepsInv(w: World, g: Settings, s: Session)
    requires RestOk(w, g, s) && RegisteredOk(w, s)
    requires CallsOk(w.sessions[s], IsMapped(w, s)) && CountsOk(w.sessions[s], IsMapped(w, s), g)
    requires TreeOk(w.sessions[s]) && (w.disposed ==> DisposedOk(w.sessions[s], IsMapped(w, s)))
    ensures Inv(ReleaseTail(w, s), g)
  {
    var v := w.sessions[s];
    if |v.consumers| == 0 && v.state == Attached {
      CloseAttachedKeepsInv(w, g, s, "last_consumer_released", false);
    } else if |v.consumers| == 0 && v.state == Attaching {
      RestatedKeepsInv(w, g, s, v.(closeRequested := "last_consumer_released"));
    } else {
      assert SessionOk(w, g, s);
    }
  }

  /** One consumer deactivated and unregistered, before the tail of the release. */
  lemma LeftRest(w: World, g: Settings, s: Session, c: Consumer)
    requires RestOk(w, g, s) && RegisteredOk(w, s) && c in w.queues && w.home[c] == s
    requires c.id in w.sessions[s].consumers && w.sessions[s].consumers[c.id] == c
    ensures RestOk(Unjoined(w, s, c), g, s) && RegisteredOk(Unjoined(w, s, c), s)
  {
    var x := Unjoined(w, s, c);
    LeftPlace(w, g, s, c);
    hide SessionOk, ConsumerOk, MapInv, RegisteredOk, DeactivateView, Left;
    forall t | t in x.sessions && t != s
      ensures SessionOk(x, g, t)
    {
      AloofSession(w, x, g, t);
    }
    forall d | d in x.queues
      ensures ConsumerOk(x, d)
    {
      LeftConsumer(w, s, c, d);
    }
  }

  lemma LeftPlace(w: World, g: Settings, s: Session, c: Consumer)
    requires MapInv(w, g) && s in w.sessions && RegisteredOk(w, s) && c in w.queues
    requires c.id in w.sessions[s].consumers && w.sessions[s].consumers[c.id] == c
    ensures MapInv(Unjoined(w, s, c), g) && RegisteredOk(Unjoined(w, s, c), s)
  {
  }

  lemma LeftConsumer(w: World, s: Session, c: Consumer, d: Consumer)
    requires s in w.sessions && IsRegistered(w.sessions[s].consumers, c)
    requires c in w.queues && d in w.queues && ConsumerOk(w, d)
    ensures ConsumerOk(Unjoined(w, s, c), d)
  {
  }

  lemma ReleaseKeepsInv(w: World, g: Settings, s: Session, c: Consumer)
    requires Inv(w, g) && s in w.sessions && c in w.queues && w.home[c] == s
    ensures Inv(Release(w, s, c), g)
  {
    PartsOfInv(w, g, s);
    assert ConsumerOk(w, c);
    hide RestOk, MapInv, WellFormed, RegisteredOk;
    if w.queues[c].active {
      var v := w.sessions[s];
      LeftRest(w, g, s, c);
      LeftCounts(v, c, g);
      ReleaseTailKeepsInv(Unjoined(w, s, c), g, s);
    }
  }

  lemma LeftCounts(v: SessionView, c: Consumer, g: Settings)
    requires CallsOk(v, true) && CountsOk(v, true, g)
    requires c.id in v.consumers && v.consumers[c.id] == c
    ensures CallsOk(Left(v, c), true) && CountsOk(Left(v, c), true, g)
  {
    ChildIdsOfLeave(v.consumers, c);
    assert Left(v, c).consumers.Keys == v.consumers.Keys - {c.id};
    SubsetIsSmaller(Left(v, c).consumers.Keys, v.consumers.Keys);
  }

  lemma JoinedRest(w: World, g: Settings, s: Session, c: Consumer)
    requires RestOk(w, g, s) && RegisteredOk(w, s) && c !in w.queues && c !in w.home
    requires c.id !in w.sessions[s].consumers
    ensures RestOk(WithConsumer(w, s, c), g, s) && RegisteredOk(WithConsumer(w, s, c), s)
  {
    var x := WithConsumer(w, s, c);
    JoinedPlace(w, g, s, c);
    hide SessionOk, ConsumerOk, MapInv, RegisteredOk, Joined;
    forall t | t in x.sessions && t != s
      ensures SessionOk(x, g, t)
    {
      AloofSession(w, x, g, t);
    }
    forall d | d in x.queues
      ensures ConsumerOk(x, d)
    {
      JoinedConsumer(w, s, c, d);
    }
  }

  lemma JoinedPlace(w: World, g: Settings, s: Session, c: Consumer)
    requires MapInv(w, g) && s in w.sessions && RegisteredOk(w, s)
    ensures MapInv(WithConsumer(w, s, c), g) && RegisteredOk(WithConsumer(w, s, c), s)
  {
  }

  lemma JoinedConsumer(w: World, s: Session, c: Consumer, d: Consumer)
    requires s in w.sessions && c.id !in w.sessions[s].consumers && (d != c ==> d in w.queues && ConsumerOk(w, d))
    ensures ConsumerOk(WithConsumer(w, s, c), d)
  {
  }

  lemma JoinedCounts(v: SessionView, c: Consumer, g: Settings)
    requires CallsOk(v, true) && CountsOk(v, true, g)
    requires c.id !in v.consumers && |v.consumers| < g.limits.maxConsumersPerSession
    ensures CallsOk(Joined(v, c), true) && CountsOk(Joined(v, c), true, g) && UnusedIsClosing(Joined(v, c))
  {
    ChildIdsOfJoin(v.consumers, c);
    assert Joined(v, c).consumers.Keys == v.consumers.Keys + {c.id};
    assert c.id in Joined(v, c).consumers;
  }

  lemma RegisterKeepsInv(w: World, g: Settings, s: Session, c: Consumer)
    requires RestOk(w, g, s) && RegisteredOk(w, s) && !w.disposed && c !in w.queues && c !in w.home
    requires IsMapped(w, s) && CallsOk(w.sessions[s], true) && CountsOk(w.sessions[s], true, g) && TreeOk(w.sessions[s])
    requires Register(w, g, s, c).1.Registered?
    ensures Inv(Register(w, g, s, c).0, g)
  {
    var x := Register(w, g, s, c).0;
    JoinedRest(w, g, s, c);
    JoinedCounts(w.sessions[s], c, g);
    assert SessionOk(x, g, s);
  }

  lemma OneMoreKey<K, V>(m: map<K, V>, k: K, v: V)
    requires k !in m
    ensures |m[k := v]| == |m| + 1
  {
    assert m[k := v].Keys == m.Keys + {k};
  }

  lemma CreatedMap(w: World, g: Settings, tab: nat, newcomer: Session)
    requires MapInv(w, g) && newcomer !in w.sessions && tab !in w.mapped && |w.mapped| < g.limits.maxSessions
    ensures MapInv(Created(w, tab, newcomer), g) && IsMapped(Created(w, tab, newcomer), newcomer)
  {
    var x := Created(w, tab, newcomer);
    OneMoreKey(w.mapped, tab, newcomer);
    assert x.sessions[newcomer].key == tab;
  }

  lemma CreatedSession(w: World, g: Settings, tab: nat, newcomer: Session, t: Session)
    requires t in w.sessions && SessionOk(w, g, t) && newcomer !in w.sessions && tab !in w.mapped
    ensures SessionOk(Created(w, tab, newcomer), g, t)
  {
    assert RegisteredOk(Created(w, tab, newcomer), t);
  }

  lemma CreatedRest(w: World, g: Settings, tab: nat, newcomer: Session)
    requires Inv(w, g) && newcomer !in w.sessions && tab !in w.mapped && |w.mapped| < g.limits.maxSessions
    ensures RestOk(Created(w, tab, newcomer), g, newcomer)
  {
    var x := Created(w, tab, newcomer);
    CreatedMap(w, g, tab, newcomer);
    forall t | t in x.sessions && t != newcomer
      ensures SessionOk(x, g, t)
    {
      CreatedSession(w, g, tab, newcomer, t);
    }
    forall d | d in x.queues
      ensures ConsumerOk(x, d)
    {
      assert ConsumerOk(w, d);
    }
  }

  lemma AcquireKeepsInv(w: World, g: Settings, tab: nat, aborted: bool, newcomer: Session, c: Consumer)
    requires Inv(w, g) && newcomer !in w.sessions && c !in w.queues && c !in w.home
    ensures Inv(Acquire(w, g, tab, aborted, newcomer, c).0, g)
  {
    var r := Acquire(w, g, tab, aborted, newcomer, c).1;
    if r.Refused? {
      RefusalChangesNothing(w, g, tab, aborted, newcomer, c);
    } else if tab in w.mapped {
      JoiningKeepsInv(w, g, tab, c);
    } else {
      OpeningKeepsInv(w, g, tab, newcomer, c);
    }
  }

  /** A refused `acquire` leaves no trace: a new session is never refused its consumer. */
  lemma RefusalChangesNothing(w: World, g: Settings, tab: nat, aborted: bool, newcomer: Session, c: Consumer)
    requires LimitsAccepted(g.limits) && Linked(w) && newcomer !in w.sessions
    requires Acquire(w, g, tab, aborted, newcomer, c).1.Refused?
    ensures Acquire(w, g, tab, aborted, newcomer, c).0 == w
  {
  }

  lemma JoiningKeepsInv(w: World, g: Settings, tab: nat, c: Consumer)
    requires Inv(w, g) && tab in w.mapped && !w.disposed && c !in w.queues && c !in w.home
    requires Register(w, g, w.mapped[tab], c).1.Registered?
    ensures Inv(Register(w, g, w.mapped[tab], c).0, g)
  {
    assert SessionOk(w, g, w.mapped[tab]);
    RegisterKeepsInv(w, g, w.mapped[tab], c);
  }

  lemma OpeningKeepsInv(w: World, g: Settings, tab: nat, newcomer: Session, c: Consumer)
    requires Inv(w, g) && newcomer !in w.sessions && c !in w.queues && c !in w.home && !w.disposed
    requires tab !in w.mapped && |w.mapped| < g.limits.maxSessions
    ensures Register(Created(w, tab, newcomer), g, newcomer, c).1.Registered?
    ensures Inv(Register(Created(w, tab, newcomer), g, newcomer, c).0, g)
  {
    CreatedRest(w, g, tab, newcomer);
    CreatedMap(w, g, tab, newcomer);
    assert ChildIds(map[]) == {};
    RegisterKeepsInv(Created(w, tab, newcomer), g, newcomer, c);
  }

  /** `detachAll` as seen from one session, `disposed` being set at the same time or not. */
  lemma ClosedSessionIsOk(w: World, g: Settings, disposed: bool, reason: string, s: Session)
    requires MapInv(w, g) && s in w.sessions && SessionOk(w, g, s)
    requires reason != "" || w.sessions[s].state != Attaching
    ensures SessionOk(DetachAll(w.(disposed := disposed), reason), g, s)
  {
    var x := DetachAll(w.(disposed := disposed), reason);
    assert ChildIds(map[]) == {};
    assert x.sessions[s].consumers == map[];
    assert IsMapped(x, s) <==> IsMapped(w, s) && w.sessions[s].state != Attached;
  }

  lemma DetachedConsumerIsOk(w: World, g: Settings, disposed: bool, reason: string, c: Consumer)
    requires Linked(w) && c in w.queues && ConsumerOk(w, c)
    requires SessionOk(w, g, w.home[c])
    ensures ConsumerOk(DetachAll(w.(disposed := disposed), reason), c)
  {
    var s := w.home[c];
    if w.queues[c].active {
      assert IsMapped(w, s);
      assert w.mapped[w.sessions[s].key] == s;
      assert IsClosing(w, w.mapped.Values, c);
    }
  }

  lemma DetachAllMap(w: World, g: Settings, reason: string)
    requires MapInv(w, g)
    ensures MapInv(DetachAll(w, reason), g)
  {
    var x := DetachAll(w, reason);
    assert x.mapped.Keys <= w.mapped.Keys;
    SubsetIsSmaller(x.mapped.Keys, w.mapped.Keys);
  }

  lemma ClosingAllKeepsInv(w: World, g: Settings, disposed: bool, reason: string)
    requires Inv(w, g) && (reason != "" || NoneAttaching(w))
    ensures Inv(DetachAll(w.(disposed := disposed), reason), g)
  {
    var x := DetachAll(w.(disposed := disposed), reason);
    DetachAllMap(w.(disposed := disposed), g, reason);
    forall s | s in x.sessions
      ensures SessionOk(x, g, s)
    {
      ClosedSessionIsOk(w, g, disposed, reason, s);
    }
    forall c | c in x.queues
      ensures ConsumerOk(x, c)
    {
      assert ConsumerOk(w, c);
      DetachedConsumerIsOk(w, g, disposed, reason, c);
    }
  }

  predicate NoneAttaching(w: World) {
    forall s :: s in w.sessions ==> w.sessions[s].state != Attaching
  }

  lemma ForgottenRequest(w: World, g: Settings, s: Session)
    requires Linked(w) && s in w.sessions && SessionOk(w, g, s) && w.sessions[s].state == Attaching
    ensures !SessionOk(DetachAll(w, ""), g, s)
  {
    assert w.mapped[w.sessions[s].key] == s;
  }

  /** `detachAll` keeps the invariant exactly when its reason is not empty or no
      attachment is in progress: an empty reason is not remembered as a request. */
  lemma DetachAllKeepsInvIff(w: World, g: Settings, reason: string)
    requires Inv(w, g)
    ensures Inv(DetachAll(w, reason), g) <==> reason != "" || NoneAttaching(w)
  {
    if reason != "" || NoneAttaching(w) {
      ClosingAllKeepsInv(w, g, w.disposed, reason);
      assert w.(disposed := w.disposed) == w;
    } else {
      var s :| s in w.sessions && w.sessions[s].state == Attaching;
      ForgottenRequest(w, g, s);
    }
  }

  /** After `dispose` everything still mapped is an attachment in progress that has
      been asked to close and has no consumer. */
  lemma DisposeKeepsInv(w: World, g: Settings)
    requires Inv(w, g)
    ensures Inv(Dispose(w), g) && Dispose(w).disposed
  {
    if !w.disposed {
      ClosingAllKeepsInv(w, g, true, "manager_disposed");
    }
  }

  /** Events move queues only. */
  lemma QueueChangeKeepsInv(w: World, g: Settings, x: World)
    requires Inv(w, g) && x == w.(queues := x.queues) && x.queues.Keys == w.queues.Keys
    requires forall c :: c in w.queues ==> x.queues[c].active == w.queues[c].active
    ensures Inv(x, g)
  {
    forall s | s in x.sessions
      ensures SessionOk(x, g, s)
    {
      assert SessionOk(w, g, s);
      assert RegisteredOk(x, s);
    }
    forall c | c in x.queues
      ensures ConsumerOk(x, c)
    {
      assert ConsumerOk(w, c);
    }
  }

  // ---------------------------------------------------------------------
  // `detachAll` one session at a time
  // ---------------------------------------------------------------------

  /** The part of the invariant the closing loop relies on. */
  ghost predicate Owned(w: World) {
    && Linked(w)
    && (forall tab :: tab in w.mapped ==> w.sessions[w.mapped[tab]].key == tab)
    && (forall s, id :: s in w.sessions && id in w.sessions[s].consumers ==>
          var c := w.sessions[s].consumers[id];
          c.id == id && c in w.home && w.home[c] == s)
  }

  lemma InvIsOwned(w: World, g: Settings)
    requires Inv(w, g)
    ensures Owned(w)
  {
    forall s, id | s in w.sessions && id in w.sessions[s].consumers
      ensures var c := w.sessions[s].consumers[id]; c.id == id && c in w.home && w.home[c] == s
    {
      assert SessionOk(w, g, s);
    }
  }

  lemma CloseNone(w: World, reason: string)
    requires Linked(w)
    ensures CloseMany(w, {}, reason) == w
  {
  }

  lemma CloseManyKeys(w: World, done: set<Session>, reason: string)
    requires done <= w.sessions.Keys
    ensures CloseMany(w, done, reason).sessions.Keys == w.sessions.Keys
    ensures CloseMany(w, done, reason).queues.Keys == w.queues.Keys
  {
  }

  lemma CloseOneMore(w: World, done: set<Session>, s: Session, reason: string)
    requires Owned(w) && done <= w.mapped.Values && s in w.mapped.Values && s !in done
    ensures CloseMany(w, done, reason).sessions[s] == w.sessions[s]
    ensures Close(CloseMany(w, done, reason), s, reason, true) == CloseMany(w, done + {s}, reason)
  {
    CloseOneMoreMap(w, done, s, reason);
    CloseOneMoreQueues(w, done, s, reason);
    var x := CloseMany(w, done, reason);
    assert Close(x, s, reason, true).sessions == CloseMany(w, done + {s}, reason).sessions;
  }

  lemma CloseOneMoreMap(w: World, done: set<Session>, s: Session, reason: string)
    requires Owned(w) && done <= w.mapped.Values && s in w.mapped.Values && s !in done
    ensures Close(CloseMany(w, done, reason), s, reason, true).mapped == CloseMany(w, done + {s}, reason).mapped
  {
    var x := CloseMany(w, done, reason);
    var z := Close(x, s, reason, true);
    var y := CloseMany(w, done + {s}, reason);
    assert w.sessions[s].key in w.mapped && w.mapped[w.sessions[s].key] == s;
    forall tab
      ensures tab in z.mapped <==> tab in y.mapped
    {
      if tab in w.mapped { assert w.mapped[tab] == s <==> tab == w.sessions[s].key; }
    }
  }

  lemma CloseOneMoreQueues(w: World, done: set<Session>, s: Session, reason: string)
    requires Owned(w) && done <= w.mapped.Values && s in w.mapped.Values && s !in done
    ensures Close(CloseMany(w, done, reason), s, reason, true).queues == CloseMany(w, done + {s}, reason).queues
  {
    var z := Close(CloseMany(w, done, reason), s, reason, true);
    ClosingKeepsKeys(w, done, s, reason);
    OwnedConsumers(w, s);
    hide CloseMany, Close, Owned;
    forall c | c in w.queues
      ensures z.queues[c] == CloseMany(w, done + {s}, reason).queues[c]
    {
      CloseOneMoreQueue(w, done, s, reason, c);
    }
  }

  lemma ClosingKeepsKeys(w: World, done: set<Session>, s: Session, reason: string)
    requires Linked(w) && done <= w.sessions.Keys && s in w.sessions && s !in done
    ensures Close(CloseMany(w, done, reason), s, reason, true).queues.Keys == w.queues.Keys
    ensures CloseMany(w, done + {s}, reason).queues.Keys == w.queues.Keys
  {
  }

  lemma OwnedConsumers(w: World, s: Session)
    requires Owned(w) && s in w.sessions
    ensures forall c :: IsRegistered(w.sessions[s].consumers, c) ==> c in w.home && w.home[c] == s
  {
  }

  lemma CloseOneMoreQueue(w: World, done: set<Session>, s: Session, reason: string, c: Consumer)
    requires Linked(w) && done <= w.sessions.Keys && s in w.sessions && s !in done && c in w.queues
    requires IsRegistered(w.sessions[s].consumers, c) ==> c in w.home && w.home[c] == s
    ensures Close(CloseMany(w, done, reason), s, reason, true).queues[c]
         == CloseMany(w, done + {s}, reason).queues[c]
  {
    assert IsClosing(w, done + {s}, c) <==>
      IsClosing(w, done, c) || (Closable(w.sessions[s]) && IsRegistered(w.sessions[s].consumers, c));
  }

  // ---------------------------------------------------------------------
  // The event queues of all consumers
  // ---------------------------------------------------------------------

  ghost predicate QueuesFine(w: World, g: Settings) {
    forall c :: c in w.queues ==> QueueFine(w.queues[c], g.limits)
  }

  ghost predicate QueueBytesExact(w: World) {
    forall c :: c in w.queues ==> w.queues[c].queueBytes == Bytes(w.queues[c].queue)
  }

  lemma FineQueuesAreExact(w: World, g: Settings)
    requires QueuesFine(w, g)
    ensures QueueBytesExact(w)
  {
    forall c | c in w.queues
      ensures w.queues[c].queueBytes == Bytes(w.queues[c].queue)
    {
      assert QueueFine(w.queues[c], g.limits);
    }
  }

  /** A step that leaves, deactivates or newly creates each queue. */
  ghost predicate OnlyDeactivates(w: World, x: World) {
    forall c :: c in x.queues ==>
      if c in w.queues then x.queues[c] == w.queues[c] || x.queues[c] == DeactivateView(w.queues[c])
      else x.queues[c] == NEW_QUEUE
  }

  lemma DeactivatingKeepsQueues(w: World, g: Settings, x: World)
    requires LimitsAccepted(g.limits) && QueuesFine(w, g) && OnlyDeactivates(w, x)
    ensures QueuesFine(x, g)
  {
    forall c | c in x.queues
      ensures QueueFine(x.queues[c], g.limits)
    {
      if c in w.queues {
        DeactivateKeepsFine(w.queues[c], g.limits);
      } else {
        NewQueueIsFine(g.limits);
      }
    }
  }

  /** Events are offered to registered consumers only, and those are active. */
  lemma OfferKeepsQueues(w: World, g: Settings, s: Session, source: string, wanted: set<Consumer>, size: nat)
    requires LimitsAccepted(g.limits) && QueuesFine(w, g) && s in w.sessions && RegisteredOk(w, s)
    ensures QueuesFine(Offered(w, g, s, source, wanted, size), g)
    ensures forall c :: c in w.queues ==>
      Offered(w, g, s, source, wanted, size).queues[c].active == w.queues[c].active
  {
    var x := Offered(w, g, s, source, wanted, size);
    forall c | c in w.queues
      ensures QueueFine(x.queues[c], g.limits) && x.queues[c].active == w.queues[c].active
    {
      if x.queues[c] != w.queues[c] { OfferKeepsFine(w.queues[c], size, g.limits); }
    }
  }

  lemma HeardKeepsInv(w: World, g: Settings, s: Session, source: string, e: Event)
    requires Inv(w, g) && s in w.sessions && w.sessions[s].state == Attached
    ensures Inv(Restated(w, s, Heard(w.sessions[s], source, e)), g)
  {
    var v := w.sessions[s];
    assert SessionOk(w, g, s);
    EventKeepsWellFormed(v.tree, source, v.childConsumerCount > 0, e);
    hide EventView, WellFormed;
    RestatedKeepsInv(w, g, s, Heard(v, source, e));
  }

  lemma OfferedKeepsInv(w: World, g: Settings, s: Session, source: string, wanted: set<Consumer>, size: nat)
    requires Inv(w, g) && QueuesFine(w, g) && s in w.sessions
    ensures Inv(Offered(w, g, s, source, wanted, size), g)
    ensures QueuesFine(Offered(w, g, s, source, wanted, size), g)
  {
    hide *;
    PartsOfInv(w, g, s);
    OfferMovesQueues(w, g, s, source, wanted, size);
    OfferKeepsQueues(w, g, s, source, wanted, size);
    QueueChangeKeepsInv(w, g, Offered(w, g, s, source, wanted, size));
  }

  lemma OfferMovesQueues(w: World, g: Settings, s: Session, source: string, wanted: set<Consumer>, size: nat)
    requires LimitsAccepted(g.limits) && s in w.sessions
    ensures var x := Offered(w, g, s, source, wanted, size);
      x == w.(queues := x.queues) && x.queues.Keys == w.queues.Keys
  {
  }

  /** An event changes the tree of one session and the queues of its consumers. */
  lemma EmitKeepsInv(w: World, g: Settings, tab: nat, source: string, e: Event, wanted: set<Consumer>, size: nat)
    requires Inv(w, g) && QueuesFine(w, g)
    ensures Inv(Emit(w, g, tab, source, e, wanted, size), g)
    ensures QueuesFine(Emit(w, g, tab, source, e, wanted, size), g)
  {
    if Hears(w, tab, source) {
      var s := w.mapped[tab];
      var x := Restated(w, s, Heard(w.sessions[s], source, e));
      hide Offered, Heard, SessionOk, MapInv, QueueFine, ConsumerOk;
      HeardKeepsInv(w, g, s, source, e);
      assert QueuesFine(x, g);
      OfferedKeepsInv(x, g, s, source, wanted, size);
    }
  }

  lemma AutoAttachOffKeepsInv(w: World, g: Settings, s: Session)
    requires Inv(w, g) && s in w.sessions
    ensures Inv(AutoAttachOff(w, s), g)
  {
    var v := w.sessions[s];
    assert SessionOk(w, g, s);
    AutoAttachOffKeepsWellFormed(v.tree);
    assert AutoAttachOffView(EMPTY_TREE) == EMPTY_TREE;
    hide AutoAttachOffView, WellFormed;
    RestatedKeepsInv(w, g, s, v.(tree := AutoAttachOffView(v.tree)));
  }

  // ---------------------------------------------------------------------
  // Every run of the manager
  // ---------------------------------------------------------------------

  datatype Action =
    | DoAcquire(tab: nat, aborted: bool, newcomer: Session, consumer: Consumer)
    | DoFinishAcquire(consumer: Consumer, aborted: bool)
    | DoRelease(consumer: Consumer)
    | DoReleaseTail(session: Session)
    | DoAttachResolved(session: Session)
    | DoAttachRejected(session: Session)
    | DoDetachSettled(session: Session)
    | DoBrowserDetach(tab: nat)
    | DoDetachAll(reason: string)
    | DoDispose
    | DoEmit(tab: nat, source: string, event: Event, wanted: set<Consumer>, size: nat)
    | DoAutoAttachOff(session: Session)
    | DoResumeDrain(consumer: Consumer)

  /** What can happen next: new objects are new, and a debugger call settles once.
      The tail of a release may run at any time, which covers every real schedule. */
  ghost predicate Enabled(w: World, a: Action) {
    Linked(w) &&
    match a
    case DoAcquire(_, _, newcomer, c) => newcomer !in w.sessions && c !in w.queues && c !in w.home
    case DoFinishAcquire(c, _) => c in w.queues && c in w.home && w.home[c] in w.sessions
    case DoRelease(c) => c in w.queues && c in w.home && w.home[c] in w.sessions
    case DoReleaseTail(s) => s in w.sessions
    case DoAttachResolved(s) => s in w.sessions && w.sessions[s].attachPending
    case DoAttachRejected(s) => s in w.sessions && w.sessions[s].attachPending
    case DoDetachSettled(s) => s in w.sessions && w.sessions[s].detachPending
    case DoAutoAttachOff(s) => s in w.sessions
    case DoResumeDrain(c) => c in w.queues && w.queues[c].draining
    case _ => true
  }

  ghost function Step(w: World, g: Settings, a: Action): World
    requires LimitsAccepted(g.limits)
  {
    if !Enabled(w, a) then w
    else match a
      case DoAcquire(tab, aborted, newcomer, c) => Acquire(w, g, tab, aborted, newcomer, c).0
      case DoFinishAcquire(c, aborted) => FinishAcquire(w, w.home[c], c, aborted)
      case DoRelease(c) => Release(w, w.home[c], c)
      case DoReleaseTail(s) => ReleaseTail(w, s)
      case DoAttachResolved(s) => AttachResolved(w, s)
      case DoAttachRejected(s) => AttachRejected(w, s)
      case DoDetachSettled(s) => DetachSettled(w, s)
      case DoBrowserDetach(tab) => BrowserDetach(w, tab)
      case DoDetachAll(reason) => DetachAll(w, reason)
      case DoDispose => Dispose(w)
      case DoEmit(tab, source, e, wanted, size) => Emit(w, g, tab, source, e, wanted, size)
      case DoAutoAttachOff(s) => AutoAttachOff(w, s)
      case DoResumeDrain(c) => ResumeDrain(w, c)
  }

  const NEW_WORLD := World(false, map[], map[], map[], map[])

  ghost function Run(g: Settings, actions: seq<Action>): World
    requires LimitsAccepted(g.limits)
  {
    if actions == [] then NEW_WORLD
    else Step(Run(g, actions[..|actions| - 1]), g, actions[|actions| - 1])
  }

  lemma ResumeKeepsQueues(w: World, g: Settings, c: Consumer)
    requires LimitsAccepted(g.limits) && QueuesFine(w, g) && c in w.queues && w.queues[c].draining
    ensures QueuesFine(ResumeDrain(w, c), g)
  {
    var x := ResumeDrain(w, c);
    DrainKeepsFine(w.queues[c], g.limits);
    forall d | d in x.queues
      ensures QueueFine(x.queues[d], g.limits)
    {
      assert QueueFine(w.queues[d], g.limits);
    }
  }

  /** The one harmful step: `detachAll` with an empty reason while something attaches. */
  predicate Harmless(w: World, a: Action) {
    a.DoDetachAll? ==> a.reason != "" || NoneAttaching(w)
  }

  /** The invariants of sessions, leases, debugger calls and trees, and of the queues. */
  ghost predicate AllOk(w: World, g: Settings) {
    Inv(w, g) && QueuesFine(w, g)
  }

  lemma QuietStepKeepsInv(w: World, g: Settings, a: Action)
    requires Inv(w, g) && Enabled(w, a) && Harmless(w, a) && !a.DoEmit? && !a.DoResumeDrain?
    ensures Inv(Step(w, g, a), g)
  {
    match a
    case DoAcquire(tab, aborted, newcomer, c) => AcquireKeepsInv(w, g, tab, aborted, newcomer, c);
    case DoFinishAcquire(c, aborted) => ReleaseKeepsInv(w, g, w.home[c], c);
    case DoRelease(c) => ReleaseKeepsInv(w, g, w.home[c], c);
    case DoReleaseTail(s) =>
      assert SessionOk(w, g, s);
      ReleaseTailKeepsInv(w, g, s);
    case DoAttachResolved(s) => AttachResolvedKeepsInv(w, g, s);
    case DoAttachRejected(s) => AttachRejectedKeepsInv(w, g, s);
    case DoDetachSettled(s) => DetachSettledKeepsInv(w, g, s);
    case DoBrowserDetach(tab) => BrowserDetachKeepsInv(w, g, tab);
    case DoDetachAll(reason) => DetachAllKeepsInvIff(w, g, reason);
    case DoDispose => DisposeKeepsInv(w, g);
    case DoAutoAttachOff(s) => AutoAttachOffKeepsInv(w, g, s);
  }

  lemma HarmlessStepKeepsAll(w: World, g: Settings, a: Action)
    requires AllOk(w, g) && Enabled(w, a) && Harmless(w, a)
    ensures AllOk(Step(w, g, a), g)
  {
    match a
    case DoEmit(tab, source, e, wanted, size) => EmitKeepsInv(w, g, tab, source, e, wanted, size);
    case DoResumeDrain(c) =>
      ResumeKeepsInv(w, g, c);
      ResumeKeepsQueues(w, g, c);
    case _ =>
      QuietStepKeepsInv(w, g, a);
      StepOnlyDeactivates(w, g, a);
      DeactivatingKeepsQueues(w, g, Step(w, g, a));
  }

  lemma HarmfulStepBreaksInv(w: World, g: Settings, a: Action)
    requires Inv(w, g) && !Harmless(w, a)
    ensures !Inv(Step(w, g, a), g)
  {
    assert Linked(w);
    hide *;
    DetachAllIsAStep(w, g, a);
    DetachAllKeepsInvIff(w, g, a.reason);
  }

  lemma DetachAllIsAStep(w: World, g: Settings, a: Action)
    requires LimitsAccepted(g.limits) && Linked(w) && !Harmless(w, a)
    ensures a.DoDetachAll? && a.reason == "" && !NoneAttaching(w) && Step(w, g, a) == DetachAll(w, a.reason)
  {
  }

  /** Every step keeps the invariants, but for the harmful one, which breaks them. */
  lemma StepKeepsInvIff(w: World, g: Settings, a: Action)
    requires AllOk(w, g)
    ensures AllOk(Step(w, g, a), g) <==> Harmless(w, a)
  {
    hide Harmless, Enabled, Inv, QueuesFine;
    if !Harmless(w, a) {
      HarmfulStepBreaksInv(w, g, a);
    } else if Enabled(w, a) {
      HarmlessStepKeepsAll(w, g, a);
    }
  }

  lemma ResumeKeepsInv(w: World, g: Settings, c: Consumer)
    requires Inv(w, g) && c in w.queues && w.queues[c].draining
    ensures Inv(ResumeDrain(w, c), g)
  {
    QueueChangeKeepsInv(w, g, ResumeDrain(w, c));
  }

  lemma ReleaseOnlyDeactivates(w: World, s: Session, c: Consumer)
    requires s in w.sessions && c in w.queues
    ensures OnlyDeactivates(w, Release(w, s, c))
  {
    if w.queues[c].active && IsRegistered(w.sessions[s].consumers, c) {
      TailMovesNoQueue(Unjoined(w, s, c), s);
    }
  }

  lemma TailOfManyIsNothing(w: World, s: Session)
    requires s in w.sessions
    ensures |w.sessions[s].consumers| > 0 ==> ReleaseTail(w, s) == w
  {
  }

  lemma ReleaseSilences(w: World, s: Session, c: Consumer)
    requires s in w.sessions && c in w.queues
    ensures c in Release(w, s, c).queues && !Release(w, s, c).queues[c].active
  {
    hide ReleaseTail;
    TailMovesNoQueue(Unjoined(w, s, c), s);
  }

  lemma TailMovesNoQueue(w: World, s: Session)
    requires s in w.sessions
    ensures ReleaseTail(w, s).queues == w.queues
  {
    if w.sessions[s].consumers == map[] {
      assert AllDeactivated(w.queues, map[]) == w.queues;
    }
  }

  lemma CloseOnlyDeactivates(w: World, s: Session, reason: string, notify: bool)
    requires s in w.sessions
    ensures OnlyDeactivates(w, Close(w, s, reason, notify))
  {
  }

  lemma AttachOnlyDeactivates(w: World, s: Session)
    requires s in w.sessions
    ensures OnlyDeactivates(w, AttachResolved(w, s))
  {
    var v := w.sessions[s].(state := Attached, attachPending := false, attachSucceeded := true);
    var reason := if v.closeRequested != "" then v.closeRequested else "unused_session";
    CloseOnlyDeactivates(Restated(w, s, v), s, reason, false);
  }

  lemma AcquireOnlyDeactivates(w: World, g: Settings, tab: nat, aborted: bool, newcomer: Session, c: Consumer)
    requires Linked(w) && c !in w.queues
    ensures OnlyDeactivates(w, Acquire(w, g, tab, aborted, newcomer, c).0)
  {
  }

  lemma DetachAllOnlyDeactivates(w: World, reason: string)
    requires Linked(w)
    ensures OnlyDeactivates(w, DetachAll(w, reason))
  {
  }

  lemma StepOnlyDeactivates(w: World, g: Settings, a: Action)
    requires LimitsAccepted(g.limits) && Enabled(w, a) && !a.DoEmit? && !a.DoResumeDrain?
    ensures OnlyDeactivates(w, Step(w, g, a))
  {
    match a
    case DoAcquire(tab, aborted, newcomer, c) => AcquireOnlyDeactivates(w, g, tab, aborted, newcomer, c);
    case DoDetachAll(reason) => DetachAllOnlyDeactivates(w, reason);
    case DoDispose => DetachAllOnlyDeactivates(w.(disposed := true), "manager_disposed");
    case DoFinishAcquire(c, aborted) => ReleaseOnlyDeactivates(w, w.home[c], c);
    case DoRelease(c) => ReleaseOnlyDeactivates(w, w.home[c], c);
    case DoReleaseTail(s) => CloseOnlyDeactivates(w, s, "last_consumer_released", false);
    case DoAttachResolved(s) => AttachOnlyDeactivates(w, s);
    case _ =>
  }

  ghost predicate HarmlessSoFar(g: Settings, actions: seq<Action>, n: nat)
    requires LimitsAccepted(g.limits) && n <= |actions|
  {
    forall i :: 0 <= i < n ==> Harmless(Run(g, actions[..i]), actions[i])
  }

  /** Every state any schedule can reach, with any debugger outcomes, keeps the
      invariants, if no step was harmful. */
  lemma {:induction false} EveryRunKeepsInv(g: Settings, actions: seq<Action>, n: nat)
    requires LimitsAccepted(g.limits) && n <= |actions| && HarmlessSoFar(g, actions, n)
    ensures AllOk(Run(g, actions[..n]), g)
  {
    hide AllOk, Step, Harmless;
    if n > 0 {
      EveryRunKeepsInv(g, actions, n - 1);
      assert actions[..n][..n - 1] == actions[..n - 1];
      StepKeepsInvIff(Run(g, actions[..n - 1]), g, actions[n - 1]);
    } else {
      NewWorldIsOk(g);
    }
  }

  lemma NewWorldIsOk(g: Settings)
    requires LimitsAccepted(g.limits)
    ensures AllOk(NEW_WORLD, g)
  {
  }

  /** A run keeps the invariants throughout if and only if none of its steps is harmful. */
  lemma RunKeepsInvIff(g: Settings, actions: seq<Action>)
    requires LimitsAccepted(g.limits)
    ensures (forall n :: 0 <= n <= |actions| ==> AllOk(Run(g, actions[..n]), g)) <==>
      HarmlessSoFar(g, actions, |actions|)
  {
    hide AllOk, Step, Harmless, Run;
    if HarmlessSoFar(g, actions, |actions|) {
      forall n | 0 <= n <= |actions|
        ensures AllOk(Run(g, actions[..n]), g)
      {
        EveryRunKeepsInv(g, actions, n);
      }
    } else {
      var i :| 0 <= i < |actions| && !Harmless(Run(g, actions[..i]), actions[i]);
      assert AllOk(Run(g, actions[..i]), g) ==> !AllOk(Run(g, actions[..i + 1]), g) by {
        RunStep(g, actions, i);
        if AllOk(Run(g, actions[..i]), g) { StepKeepsInvIff(Run(g, actions[..i]), g, actions[i]); }
      }
    }
  }

  lemma RunStep(g: Settings, actions: seq<Action>, i: nat)
    requires LimitsAccepted(g.limits) && i < |actions|
    ensures Run(g, actions[..i + 1]) == Step(Run(g, actions[..i]), g, actions[i])
  {
    assert actions[..i + 1][..i] == actions[..i];
  }

  /** What the manager's methods ask of the state is true of every state they can be in. */
  lemma EveryRunSuitsTheManager(g: Settings, actions: seq<Action>)
    requires LimitsAccepted(g.limits) && HarmlessSoFar(g, actions, |actions|)
    ensures Owned(Run(g, actions)) && QueueBytesExact(Run(g, actions))
  {
    EveryRunKeepsInv(g, actions, |actions|);
    assert actions[..|actions|] == actions;
    hide Run;
    InvIsOwned(Run(g, actions), g);
    FineQueuesAreExact(Run(g, actions), g);
  }

  /** The promises of the invariant, spelled out for one session of any run. */
  lemma EverySessionKeepsItsPromises(g: Settings, actions: seq<Action>, s: Session)
    requires LimitsAccepted(g.limits) && HarmlessSoFar(g, actions, |actions|)
    requires s in Run(g, actions).sessions
    ensures var w := Run(g, actions);
            var v := w.sessions[s];
            // one attach, at most one detach, and only after the attach succeeded
            && v.attachCalls == 1 && v.detachCalls <= 1 && (v.detachCalls == 1 ==> v.attachSucceeded)
            // attached but no longer mapped: being detached, or detached
            && (v.attachSucceeded && !IsMapped(w, s) ==> v.state == Detaching || v.state == Detached)
            && (IsMapped(w, s) ==> Closable(v))
            && (v.state == Attached ==> |v.consumers| >= 1)
            && (v.state == Attaching && |v.consumers| == 0 ==> v.closeRequested != "")
            && |v.consumers| <= g.limits.maxConsumersPerSession
            && RegisteredOk(w, s)
            && v.childConsumerCount == |ChildIds(v.consumers)|
            && |w.mapped| <= g.limits.maxSessions
            && (w.disposed && IsMapped(w, s) ==> v.state == Attaching && v.closeRequested != "" && |v.consumers| == 0)
  {
    EveryRunKeepsInv(g, actions, |actions|);
    assert actions[..|actions|] == actions;
    assert SessionOk(Run(g, actions), g, s);
  }

  /** In any run, parents in a tree are the root or live, contexts of children belong to
      live children, and no frame is kept without contexts; and a session that is not
      attached and mapped has neither children nor contexts. */
  lemma EveryTreeIsWellFormed(g: Settings, actions: seq<Action>, s: Session)
    requires LimitsAccepted(g.limits) && HarmlessSoFar(g, actions, |actions|)
    requires s in Run(g, actions).sessions
    ensures var w := Run(g, actions);
            var v := w.sessions[s];
            && WellFormed(v.tree)
            && (v.tree != EMPTY_TREE ==> v.state == Attached && IsMapped(w, s))
  {
    EveryRunKeepsInv(g, actions, |actions|);
    assert actions[..|actions|] == actions;
    assert SessionOk(Run(g, actions), g, s);
  }

  // ---------------------------------------------------------------------
  // A session's children and contexts, from the history of the run alone
  // ---------------------------------------------------------------------

  predicate IsTold(w: World, a: Action, s: Session)
    requires Linked(w)
  {
    a.DoEmit? && a.tab in w.mapped && w.mapped[a.tab] == s && w.sessions[s].state == Attached
  }

  predicate WantsChildren(v: SessionView) {
    exists id :: id in v.consumers && v.consumers[id].includeChildTargets
  }

  /** What the session was told since it was attached; nothing unless it still is. */
  ghost function ToldSince(g: Settings, actions: seq<Action>, s: Session): seq<Item>
    requires LimitsAccepted(g.limits)
  {
    if actions == [] then []
    else
      var before, a := actions[..|actions| - 1], actions[|actions| - 1];
      var w, x, h := Run(g, before), Run(g, actions), ToldSince(g, before, s);
      if s !in x.sessions || x.sessions[s].state != Attached then []
      else if Linked(w) && IsTold(w, a, s) then h + [Told(a.source, WantsChildren(w.sessions[s]), a.event)]
      else if a == DoAutoAttachOff(s) then h + [Off]
      else h
  }

  /** `s` keeps its tree, or is not attached any more. */
  predicate KeepsTree(w: World, x: World, s: Session) {
    s in w.sessions && s in x.sessions &&
    (x.sessions[s].state == Attached ==> x.sessions[s].tree == w.sessions[s].tree)
  }

  lemma AcquireKeepsTree(w: World, g: Settings, tab: nat, aborted: bool, newcomer: Session, c: Consumer, s: Session)
    requires Linked(w) && newcomer !in w.sessions && s in w.sessions
    ensures KeepsTree(w, Acquire(w, g, tab, aborted, newcomer, c).0, s)
  {
  }

  lemma CloseKeepsTree(w: World, t: Session, reason: string, notify: bool, s: Session)
    requires t in w.sessions && s in w.sessions
    ensures KeepsTree(w, Close(w, t, reason, notify), s)
  {
  }

  lemma TailKeepsTree(w: World, t: Session, s: Session)
    requires t in w.sessions && s in w.sessions
    ensures KeepsTree(w, ReleaseTail(w, t), s)
  {
    CloseKeepsTree(w, t, "last_consumer_released", false, s);
  }

  lemma ReleaseKeepsTree(w: World, t: Session, c: Consumer, s: Session)
    requires t in w.sessions && c in w.queues && s in w.sessions
    ensures KeepsTree(w, Release(w, t, c), s)
  {
    hide ReleaseTail;
    TailKeepsTree(Unjoined(w, t, c), t, s);
  }

  lemma AttachKeepsTree(w: World, t: Session, s: Session)
    requires t in w.sessions && s in w.sessions
    ensures KeepsTree(w, AttachResolved(w, t), s)
  {
    hide Close;
    var v := w.sessions[t].(state := Attached, attachPending := false, attachSucceeded := true);
    var reason := if v.closeRequested != "" then v.closeRequested else "unused_session";
    CloseKeepsTree(Restated(w, t, v), t, reason, false, s);
  }

  lemma DepartedKeepsTree(w: World, t: Session, v: SessionView, s: Session)
    requires t in w.sessions && s in w.sessions && v.state != Attached
    ensures KeepsTree(w, Departed(w, t, v), s)
  {
  }

  lemma DetachAllKeepsTree(w: World, reason: string, s: Session)
    requires Linked(w) && s in w.sessions
    ensures KeepsTree(w, DetachAll(w, reason), s)
  {
  }

  lemma QuietStepKeepsTree(w: World, g: Settings, a: Action, s: Session)
    requires Linked(w) && LimitsAccepted(g.limits) && Enabled(w, a) && s in w.sessions
    requires !a.DoEmit? && !a.DoAutoAttachOff?
    ensures KeepsTree(w, Step(w, g, a), s)
  {
    hide Acquire, Release, ReleaseTail, AttachResolved, Departed, DetachAll;
    match a
    case DoAcquire(tab, aborted, newcomer, c) => AcquireKeepsTree(w, g, tab, aborted, newcomer, c, s);
    case DoFinishAcquire(c, aborted) => ReleaseKeepsTree(w, w.home[c], c, s);
    case DoRelease(c) => ReleaseKeepsTree(w, w.home[c], c, s);
    case DoReleaseTail(t) => TailKeepsTree(w, t, s);
    case DoAttachResolved(t) => AttachKeepsTree(w, t, s);
    case DoAttachRejected(t) =>
      DepartedKeepsTree(w, t, w.sessions[t].(state := Failed, attachPending := false), s);
    case DoBrowserDetach(tab) =>
      if tab in w.mapped {
        var t := w.mapped[tab];
        DepartedKeepsTree(w, t, w.sessions[t].(state := Detached, tree := EMPTY_TREE), s);
      }
    case DoDetachAll(reason) => DetachAllKeepsTree(w, reason, s);
    case DoDispose => DetachAllKeepsTree(w.(disposed := true), "manager_disposed", s);
    case DoDetachSettled(t) =>
    case DoResumeDrain(c) =>
  }

  /** The tree of a session that is attached after a step. */
  lemma TreeMoves(w: World, g: Settings, a: Action, s: Session)
    requires Inv(w, g) && Enabled(w, a) && s in w.sessions
    requires s in Step(w, g, a).sessions && Step(w, g, a).sessions[s].state == Attached
    ensures var v := w.sessions[s];
      Step(w, g, a).sessions[s].tree ==
        if IsTold(w, a, s) then EventView(v.tree, a.source, WantsChildren(v), a.event)
        else if a == DoAutoAttachOff(s) then AutoAttachOffView(v.tree)
        else v.tree
  {
    assert Linked(w);
    hide EventView, AutoAttachOffView, Emit, Inv, IsTold, WantsChildren, Acquire, FinishAcquire, Release, ReleaseTail,
      AttachResolved, AttachRejected, BrowserDetach, DetachAll, Dispose, ResumeDrain;
    match a
    case DoEmit(tab, source, e, wanted, size) => EmitMovesTree(w, g, tab, source, e, wanted, size, s);
    case DoAutoAttachOff(t) =>
    case _ => QuietStepKeepsTree(w, g, a, s);
  }

  lemma EmitMovesTree(w: World, g: Settings, tab: nat, source: string, e: Event, wanted: set<Consumer>, size: nat,
                      s: Session)
    requires Inv(w, g) && s in w.sessions
    ensures var x, v := Emit(w, g, tab, source, e, wanted, size), w.sessions[s];
      s in x.sessions && x.sessions[s].tree ==
        if IsTold(w, DoEmit(tab, source, e, wanted, size), s) then EventView(v.tree, source, WantsChildren(v), e)
        else v.tree
  {
    assert Linked(w);
    hide EventView, Inv, WantsChildren, Emit;
    ChildCount(w, g, s);
    if source != "" && source !in w.sessions[s].tree.children { UnheardChangesNothing(w.sessions[s], source, e); }
    EmittedTree(w, g, tab, source, e, wanted, size, s);
  }

  lemma EmittedTree(w: World, g: Settings, tab: nat, source: string, e: Event, wanted: set<Consumer>, size: nat,
                    s: Session)
    requires LimitsAccepted(g.limits) && Linked(w) && s in w.sessions
    ensures var x, v := Emit(w, g, tab, source, e, wanted, size), w.sessions[s];
      s in x.sessions && x.sessions[s].tree ==
        if Hears(w, tab, source) && w.mapped[tab] == s then EventView(v.tree, source, v.childConsumerCount > 0, e)
        else v.tree
  {
    hide EventView;
  }

  lemma ChildCount(w: World, g: Settings, s: Session)
    requires Inv(w, g) && s in w.sessions
    ensures w.sessions[s].childConsumerCount > 0 <==> WantsChildren(w.sessions[s])
  {
    assert SessionOk(w, g, s);
    var ids := ChildIds(w.sessions[s].consumers);
    if WantsChildren(w.sessions[s]) {
      var id :| id in w.sessions[s].consumers && w.sessions[s].consumers[id].includeChildTargets;
      assert id in ids;
    } else {
      assert ids == {};
    }
  }

  lemma UnheardChangesNothing(v: SessionView, source: string, e: Event)
    requires source != "" && source !in v.tree.children
    ensures EventView(v.tree, source, WantsChildren(v), e) == v.tree
  {
  }

  /** A session that has not been attached has no history. */
  lemma ToldOnlyAttached(g: Settings, actions: seq<Action>, s: Session)
    requires LimitsAccepted(g.limits)
    requires s !in Run(g, actions).sessions || Run(g, actions).sessions[s].state != Attached
    ensures ToldSince(g, actions, s) == []
  {
  }

  lemma EmitKeepsSessions(w: World, g: Settings, tab: nat, source: string, e: Event, wanted: set<Consumer>, size: nat)
    requires LimitsAccepted(g.limits) && Linked(w)
    ensures Emit(w, g, tab, source, e, wanted, size).sessions.Keys == w.sessions.Keys
  {
    hide EventView;
  }

  lemma ReleaseKeepsSessions(w: World, s: Session, c: Consumer)
    requires s in w.sessions && c in w.queues
    ensures Release(w, s, c).sessions.Keys == w.sessions.Keys
  {
    hide ReleaseTail;
    TailKeepsSessions(Unjoined(w, s, c), s);
  }

  lemma TailKeepsSessions(w: World, s: Session)
    requires s in w.sessions
    ensures ReleaseTail(w, s).sessions.Keys == w.sessions.Keys
  {
  }

  /** Only `acquire` makes a session, and that is not attached yet. */
  lemma NewcomersAttach(w: World, g: Settings, a: Action, s: Session)
    requires LimitsAccepted(g.limits) && Linked(w) && s !in w.sessions && s in Step(w, g, a).sessions
    ensures Step(w, g, a).sessions[s].state != Attached
  {
    hide Emit, Release, AutoAttachOffView;
    if Enabled(w, a) {
      match a
      case DoEmit(tab, source, e, wanted, size) => EmitKeepsSessions(w, g, tab, source, e, wanted, size);
      case DoRelease(c) => ReleaseKeepsSessions(w, w.home[c], c);
      case DoFinishAcquire(c, aborted) => ReleaseKeepsSessions(w, w.home[c], c);
      case _ =>
    }
  }

  lemma OnlyAttachedHaveTrees(w: World, g: Settings, s: Session)
    requires AllOk(w, g) && s in w.sessions && w.sessions[s].state != Attached
    ensures w.sessions[s].tree == EMPTY_TREE == TreeOf([])
  {
    assert SessionOk(w, g, s);
  }

  /** One more step of a session that is attached after it. */
  lemma ToldStep(g: Settings, actions: seq<Action>, a: Action, s: Session)
    requires LimitsAccepted(g.limits) && AllOk(Run(g, actions), g) && s in Run(g, actions).sessions
    requires var x := Step(Run(g, actions), g, a);
      s in x.sessions && x.sessions[s].state == Attached
    requires Run(g, actions).sessions[s].tree == TreeOf(ToldSince(g, actions, s))
    ensures Step(Run(g, actions), g, a).sessions[s].tree == TreeOf(ToldSince(g, actions + [a], s))
  {
    hide *;
    var w, h := Run(g, actions), ToldSince(g, actions, s);
    LinkedIfOk(w, g);
    ToldMore(g, actions, a, s);
    TreeMoved(w, g, a, s);
    if a.DoEmit? { TreeOfTold(h, a.source, WantsChildren(w.sessions[s]), a.event); }
    TreeOfTold(h, "", false, OtherEvent);
  }

  lemma TreeOfTold(h: seq<Item>, source: string, childConsumers: bool, e: Event)
    ensures TreeOf(h + [Told(source, childConsumers, e)]) == EventView(TreeOf(h), source, childConsumers, e)
    ensures TreeOf(h + [Off]) == AutoAttachOffView(TreeOf(h))
  {
    TreeOfMore(h, Told(source, childConsumers, e));
    TreeOfMore(h, Off);
  }

  lemma TreeMoved(w: World, g: Settings, a: Action, s: Session)
    requires AllOk(w, g) && Linked(w) && s in w.sessions
    requires s in Step(w, g, a).sessions && Step(w, g, a).sessions[s].state == Attached
    ensures var v := w.sessions[s];
      Step(w, g, a).sessions[s].tree ==
        if a.DoEmit? && IsTold(w, a, s) then EventView(v.tree, a.source, WantsChildren(v), a.event)
        else if a == DoAutoAttachOff(s) then AutoAttachOffView(v.tree)
        else v.tree
  {
    assert !a.DoEmit? ==> !IsTold(w, a, s);
    hide Step, EventView, AutoAttachOffView, Inv, QueuesFine, IsTold, WantsChildren;
    if Enabled(w, a) { TreeMoves(w, g, a, s); } else { DisabledIsNothing(w, g, a, s); }
  }

  lemma ToldMore(g: Settings, actions: seq<Action>, a: Action, s: Session)
    requires LimitsAccepted(g.limits) && Linked(Run(g, actions)) && s in Run(g, actions).sessions
    requires var x := Step(Run(g, actions), g, a);
      s in x.sessions && x.sessions[s].state == Attached
    ensures var w, h := Run(g, actions), ToldSince(g, actions, s);
      ToldSince(g, actions + [a], s) ==
        if a.DoEmit? && IsTold(w, a, s) then h + [Told(a.source, WantsChildren(w.sessions[s]), a.event)]
        else if a == DoAutoAttachOff(s) then h + [Off]
        else h
  {
    assert (actions + [a])[..|actions|] == actions;
    hide Step, WantsChildren;
  }

  lemma DisabledIsNothing(w: World, g: Settings, a: Action, s: Session)
    requires LimitsAccepted(g.limits) && Linked(w) && !Enabled(w, a) && s in w.sessions
    ensures Step(w, g, a) == w && !IsTold(w, a, s) && a != DoAutoAttachOff(s)
  {
  }

  /** The tree of a session is what the history of its events makes of it. */
  lemma {:induction false} TreeIsItsHistory(g: Settings, actions: seq<Action>, n: nat, s: Session)
    requires LimitsAccepted(g.limits) && n <= |actions| && HarmlessSoFar(g, actions, n)
    requires s in Run(g, actions[..n]).sessions
    ensures Run(g, actions[..n]).sessions[s].tree == TreeOf(ToldSince(g, actions[..n], s))
  {
    hide Step, Harmless, AllOk, TreeOf, ToldSince;
    EveryRunKeepsInv(g, actions, n);
    if Run(g, actions[..n]).sessions[s].state != Attached {
      ToldOnlyAttached(g, actions[..n], s);
      OnlyAttachedHaveTrees(Run(g, actions[..n]), g, s);
    } else if n > 0 {
      EveryRunKeepsInv(g, actions, n - 1);
      RunStep(g, actions, n - 1);
      var w := Run(g, actions[..n - 1]);
      LinkedIfOk(w, g);
      if s !in w.sessions { NewcomersAttach(w, g, actions[n - 1], s); }
      TreeIsItsHistory(g, actions, n - 1, s);
      ToldStep(g, actions[..n - 1], actions[n - 1], s);
      assert actions[..n] == actions[..n - 1] + [actions[n - 1]];
    }
  }

  lemma LinkedIfOk(w: World, g: Settings)
    requires AllOk(w, g)
    ensures Linked(w)
  {
  }

  /** In any run, the child sessions of a session are those that were announced to it and
      not removed since, each filed under the one that announced it last; and its frames
      list exactly the contexts that were created in them and not ended since. */
  lemma ChildrenFollowTheEvents(g: Settings, actions: seq<Action>, s: Session, id: string, frame: string, c: Context)
    requires LimitsAccepted(g.limits) && HarmlessSoFar(g, actions, |actions|) && s in Run(g, actions).sessions
    ensures var tree, h := Run(g, actions).sessions[s].tree, ToldSince(g, actions, s);
      && (id in tree.children <==> Live(h, id))
      && (id in tree.children ==> tree.children[id].parentSessionId == Announcer(h, id))
      && ((exists key :: frame in tree.frames && key in tree.frames[frame] && tree.frames[frame][key] == c) <==>
            InFrame(h, frame, c))
  {
    assert actions[..|actions|] == actions;
    hide Run, ToldSince, Live, InFrame;
    TreeIsItsHistory(g, actions, |actions|, s);
    ChildrenAreTheirHistory(ToldSince(g, actions, s));
    ContextsAreTheirHistory(ToldSince(g, actions, s), frame, c);
  }

  // ---------------------------------------------------------------------
  // Leases, as one consumer sees them
  // ---------------------------------------------------------------------

  /** `acquire` registers its consumer: nothing is refused but for these reasons. */
  lemma AcquireRegistersIff(w: World, g: Settings, tab: nat, aborted: bool, newcomer: Session, c: Consumer)
    requires LimitsAccepted(g.limits) && Linked(w) && newcomer !in w.sessions && c !in w.queues
    ensures var (x, r) := Acquire(w, g, tab, aborted, newcomer, c);
      && (r.Registered? <==>
            && !w.disposed && !aborted && (c.includeChildTargets ==> g.supportsFlatSessions)
            && if tab in w.mapped
               then c.id !in w.sessions[w.mapped[tab]].consumers &&
                    |w.sessions[w.mapped[tab]].consumers| < g.limits.maxConsumersPerSession
               else |w.mapped| < g.limits.maxSessions)
      && (r.Registered? <==> c in x.queues)
  {
  }

  /** A registered consumer is active at the session of its tab: a new one, attaching, only
      if the tab had none. */
  lemma RegisteredWhere(w: World, g: Settings, tab: nat, aborted: bool, newcomer: Session, c: Consumer)
    requires LimitsAccepted(g.limits) && Linked(w) && newcomer !in w.sessions && c !in w.queues
    requires Acquire(w, g, tab, aborted, newcomer, c).1.Registered?
    ensures var (x, r) := Acquire(w, g, tab, aborted, newcomer, c);
      && tab in x.mapped && x.mapped[tab] == r.session && c in x.home && x.home[c] == r.session
      && r.session in x.sessions && IsRegistered(x.sessions[r.session].consumers, c) && IsActive(x, c)
      && (if tab in w.mapped then r.session == w.mapped[tab]
          else r.session == newcomer && x.sessions[newcomer].state == Attaching)
  {
  }

  /** Whether a step ends the lease of a consumer that is active. */
  predicate LeaseEnds(w: World, a: Action, c: Consumer) {
    c in w.home && w.home[c] in w.sessions &&
    var s, v := w.home[c], w.sessions[w.home[c]];
    match a
    case DoRelease(d) => d == c
    case DoFinishAcquire(d, aborted) => d == c && (aborted || v.state != Attached)
    case DoAttachResolved(t) => t == s && (v.closeRequested != "" || w.disposed)
    case DoAttachRejected(t) => t == s
    case DoBrowserDetach(tab) => tab == v.key
    case DoDetachAll(_) => true
    case DoDispose => !w.disposed
    case _ => false
  }

  predicate IsActive(w: World, c: Consumer) {
    c in w.queues && w.queues[c].active
  }

  /** An active consumer is registered with a mapped session that may attach. */
  lemma ActiveIsRegistered(w: World, g: Settings, c: Consumer)
    requires Inv(w, g) && IsActive(w, c)
    ensures c in w.home && w.home[c] in w.sessions
    ensures var s := w.home[c];
      IsRegistered(w.sessions[s].consumers, c) && IsMapped(w, s) && Closable(w.sessions[s]) && s in w.mapped.Values
  {
    assert ConsumerOk(w, c);
    assert SessionOk(w, g, w.home[c]);
  }

  /** Only its own consumers are registered with a session. */
  lemma RegisteredAtHome(w: World, g: Settings, s: Session, c: Consumer)
    requires Inv(w, g) && s in w.sessions && IsRegistered(w.sessions[s].consumers, c)
    ensures c in w.queues && c in w.home && w.home[c] == s && w.queues[c].active
  {
    assert SessionOk(w, g, s);
  }

  lemma AcquireLeavesLeases(w: World, g: Settings, tab: nat, aborted: bool, newcomer: Session, d: Consumer, c: Consumer)
    requires Linked(w) && d !in w.queues && c in w.queues
    ensures IsActive(Acquire(w, g, tab, aborted, newcomer, d).0, c) == IsActive(w, c)
  {
  }

  lemma ReleaseEndsOne(w: World, g: Settings, d: Consumer, c: Consumer)
    requires Inv(w, g) && d in w.queues && d in w.home && w.home[d] in w.sessions && c in w.queues
    ensures IsActive(Release(w, w.home[d], d), c) <==> IsActive(w, c) && c != d
  {
    hide Inv, ReleaseTail;
    var s := w.home[d];
    TailMovesNoQueue(Unjoined(w, s, d), s);
  }

  lemma CloseEndsAll(w: World, s: Session, reason: string, c: Consumer)
    requires s in w.sessions && w.sessions[s].state == Attached && c in w.queues
    ensures IsActive(Close(w, s, reason, false), c) <==>
      IsActive(w, c) && !IsRegistered(w.sessions[s].consumers, c)
  {
  }

  lemma RegisteredIffActive(w: World, g: Settings, s: Session, c: Consumer)
    requires Inv(w, g) && s in w.sessions
    ensures IsRegistered(w.sessions[s].consumers, c) <==> IsActive(w, c) && c in w.home && w.home[c] == s
  {
    if IsActive(w, c) { ActiveIsRegistered(w, g, c); }
    if IsRegistered(w.sessions[s].consumers, c) { RegisteredAtHome(w, g, s, c); }
  }

  lemma AttachedQueue(w: World, s: Session, c: Consumer)
    requires s in w.sessions && c in w.queues
    ensures var v := w.sessions[s];
      IsActive(AttachResolved(w, s), c) <==>
        IsActive(w, c) && !(IsRegistered(v.consumers, c) && (v.closeRequested != "" || w.disposed))
  {
    hide Close;
    var v := w.sessions[s].(state := Attached, attachPending := false, attachSucceeded := true);
    var reason := if v.closeRequested != "" then v.closeRequested else "unused_session";
    CloseEndsAll(Restated(w, s, v), s, reason, c);
  }

  lemma AttachEndsUnwanted(w: World, g: Settings, s: Session, c: Consumer)
    requires Inv(w, g) && s in w.sessions && c in w.queues
    ensures IsActive(AttachResolved(w, s), c) <==> IsActive(w, c) && !LeaseEnds(w, DoAttachResolved(s), c)
  {
    hide *;
    RegisteredIffActive(w, g, s, c);
    AttachedQueue(w, s, c);
    if IsActive(w, c) {
      ActiveIsRegistered(w, g, c);
      EndsByAttach(w, s, c);
    }
  }

  lemma EndsByAttach(w: World, s: Session, c: Consumer)
    requires c in w.home && w.home[c] in w.sessions
    ensures LeaseEnds(w, DoAttachResolved(s), c) <==>
      w.home[c] == s && (w.sessions[w.home[c]].closeRequested != "" || w.disposed)
    ensures forall tab :: LeaseEnds(w, DoBrowserDetach(tab), c) <==> tab == w.sessions[w.home[c]].key
  {
  }

  lemma DepartedQueue(w: World, s: Session, v: SessionView, c: Consumer)
    requires s in w.sessions && c in w.queues
    ensures IsActive(Departed(w, s, v), c) <==> IsActive(w, c) && !IsRegistered(w.sessions[s].consumers, c)
  {
  }

  lemma DepartureEndsAll(w: World, g: Settings, s: Session, v: SessionView, c: Consumer)
    requires Inv(w, g) && s in w.sessions && c in w.queues
    ensures IsActive(Departed(w, s, v), c) <==> IsActive(w, c) && !(c in w.home && w.home[c] == s)
  {
    hide *;
    RegisteredIffActive(w, g, s, c);
    DepartedQueue(w, s, v, c);
  }

  lemma DetachAllEndsAll(w: World, g: Settings, disposed: bool, reason: string, c: Consumer)
    requires Inv(w, g) && c in w.queues
    ensures !IsActive(DetachAll(w.(disposed := disposed), reason), c)
  {
    if IsActive(w, c) {
      ActiveIsRegistered(w, g, c);
      assert IsClosing(w.(disposed := disposed), w.mapped.Values, c);
    }
    hide Inv;
  }

  lemma EmitEndsNone(w: World, g: Settings, tab: nat, source: string, e: Event, wanted: set<Consumer>, size: nat,
                     c: Consumer)
    requires AllOk(w, g) && c in w.queues
    ensures IsActive(Emit(w, g, tab, source, e, wanted, size), c) == IsActive(w, c)
  {
    if Hears(w, tab, source) {
      var s := w.mapped[tab];
      HeardKeepsInv(w, g, s, source, e);
      var x := Restated(w, s, Heard(w.sessions[s], source, e));
      PartsOfInv(x, g, s);
      hide Heard, Inv, RestOk, SessionOk, RegisteredOk, QueueFine;
      OfferKeepsQueues(x, g, s, source, wanted, size);
    }
  }

  /** A step ends exactly these leases of the consumers it knows. */
  lemma StepEndsLeases(w: World, g: Settings, a: Action, c: Consumer)
    requires AllOk(w, g) && Enabled(w, a) && c in w.queues
    ensures IsActive(Step(w, g, a), c) <==> IsActive(w, c) && !LeaseEnds(w, a, c)
  {
    hide Acquire, Release, ReleaseTail, AttachResolved, Departed, DetachAll, Emit, IsActive, Inv, QueuesFine,
      AutoAttachOffView, DrainView;
    LinkedIfOk(w, g);
    if IsActive(w, c) { ActiveIsRegistered(w, g, c); }
    match a
    case DoAcquire(tab, aborted, newcomer, d) => AcquireLeavesLeases(w, g, tab, aborted, newcomer, d, c);
    case DoFinishAcquire(d, aborted) => FinishEndsOne(w, g, d, aborted, c);
    case DoRelease(d) => ReleaseEndsOne(w, g, d, c);
    case DoReleaseTail(s) => TailEndsNone(w, g, s, c);
    case DoAttachResolved(s) => AttachEndsUnwanted(w, g, s, c);
    case DoAttachRejected(s) =>
      DepartureEndsAll(w, g, s, w.sessions[s].(state := Failed, attachPending := false), c);
    case DoBrowserDetach(tab) => BrowserEndsAll(w, g, tab, c);
    case DoDetachAll(reason) => DetachAllEndsAll(w, g, w.disposed, reason, c);
    case DoDispose => DetachAllEndsAll(w, g, true, "manager_disposed", c);
    case DoEmit(tab, source, e, wanted, size) => EmitEndsNone(w, g, tab, source, e, wanted, size, c);
    case DoDetachSettled(s) => SameQueues(w, DetachSettled(w, s), c);
    case DoAutoAttachOff(s) => SameQueues(w, AutoAttachOff(w, s), c);
    case DoResumeDrain(d) => DrainEndsNone(w, d, c);
  }

  lemma FinishEndsOne(w: World, g: Settings, d: Consumer, aborted: bool, c: Consumer)
    requires Inv(w, g) && d in w.queues && d in w.home && w.home[d] in w.sessions && c in w.queues
    ensures IsActive(FinishAcquire(w, w.home[d], d, aborted), c) <==>
      IsActive(w, c) && !(c == d && (aborted || w.sessions[w.home[d]].state != Attached))
  {
    hide Inv, Release;
    ReleaseEndsOne(w, g, d, c);
  }

  lemma SameQueues(w: World, x: World, c: Consumer)
    requires x.queues == w.queues
    ensures IsActive(x, c) == IsActive(w, c)
  {
  }

  lemma DrainEndsNone(w: World, d: Consumer, c: Consumer)
    requires d in w.queues
    ensures IsActive(ResumeDrain(w, d), c) == IsActive(w, c)
  {
  }

  lemma TailEndsNone(w: World, g: Settings, s: Session, c: Consumer)
    requires s in w.sessions
    ensures IsActive(ReleaseTail(w, s), c) == IsActive(w, c)
  {
    TailMovesNoQueue(w, s);
  }

  lemma BrowserEndsAll(w: World, g: Settings, tab: nat, c: Consumer)
    requires Inv(w, g) && c in w.queues
    ensures IsActive(BrowserDetach(w, tab), c) <==> IsActive(w, c) && !LeaseEnds(w, DoBrowserDetach(tab), c)
  {
    hide *;
    MappedByKey(w, g);
    if IsActive(w, c) {
      ActiveIsRegistered(w, g, c);
      EndsByAttach(w, w.home[c], c);
      HomeIsMapped(w, w.home[c]);
    }
    BrowserDeparts(w, tab);
    if tab in w.mapped {
      var s := w.mapped[tab];
      DepartureEndsAll(w, g, s, w.sessions[s].(state := Detached, tree := EMPTY_TREE), c);
    }
  }

  lemma MappedByKey(w: World, g: Settings)
    requires Inv(w, g)
    ensures Linked(w) && forall tab :: tab in w.mapped ==>
      w.mapped[tab] in w.sessions && w.sessions[w.mapped[tab]].key == tab
  {
  }

  lemma HomeIsMapped(w: World, s: Session)
    requires s in w.sessions && IsMapped(w, s)
    ensures w.sessions[s].key in w.mapped && w.mapped[w.sessions[s].key] == s
  {
  }

  lemma BrowserDeparts(w: World, tab: nat)
    requires Linked(w)
    ensures tab !in w.mapped ==> BrowserDetach(w, tab) == w
    ensures tab in w.mapped ==>
      w.mapped[tab] in w.sessions &&
      BrowserDetach(w, tab) ==
        Departed(w, w.mapped[tab], w.sessions[w.mapped[tab]].(state := Detached, tree := EMPTY_TREE))
  {
  }

  /** Step `k` of the run registers `c`. */
  ghost predicate Joins(g: Settings, actions: seq<Action>, k: nat, c: Consumer)
    requires LimitsAccepted(g.limits) && k < |actions|
  {
    c !in Run(g, actions[..k]).queues && c in Run(g, actions[..k + 1]).queues
  }

  /** Step `k` ends the lease of `c`. */
  ghost predicate EndsAt(g: Settings, actions: seq<Action>, k: nat, c: Consumer)
    requires LimitsAccepted(g.limits) && k < |actions|
  {
    Enabled(Run(g, actions[..k]), actions[k]) && LeaseEnds(Run(g, actions[..k]), actions[k], c)
  }

  ghost predicate HeldSince(g: Settings, actions: seq<Action>, k: nat, n: nat, c: Consumer)
    requires LimitsAccepted(g.limits) && k < n <= |actions|
  {
    forall j :: k < j < n ==> !EndsAt(g, actions, j, c)
  }

  /** A new consumer is one that `acquire` has just registered. */
  lemma NewConsumersAreActive(w: World, g: Settings, a: Action, c: Consumer)
    requires LimitsAccepted(g.limits) && Linked(w) && c !in w.queues && c in Step(w, g, a).queues
    ensures IsActive(Step(w, g, a), c)
  {
    hide Emit, Release, AutoAttachOffView, ReleaseTail, AttachResolved, DetachAll, BrowserDetach;
    if Enabled(w, a) && !a.DoAcquire? { NoNewConsumers(w, g, a); }
  }

  lemma NoNewConsumers(w: World, g: Settings, a: Action)
    requires LimitsAccepted(g.limits) && Linked(w) && Enabled(w, a) && !a.DoAcquire?
    ensures Step(w, g, a).queues.Keys <= w.queues.Keys
  {
    hide ReleaseTail, EventView;
    match a
    case DoRelease(c) => TailMovesNoQueue(Unjoined(w, w.home[c], c), w.home[c]);
    case DoFinishAcquire(c, _) => TailMovesNoQueue(Unjoined(w, w.home[c], c), w.home[c]);
    case DoReleaseTail(s) => TailMovesNoQueue(w, s);
    case _ =>
  }

  lemma StepMovesLeases(w: World, g: Settings, a: Action, c: Consumer)
    requires AllOk(w, g)
    ensures c in w.queues ==>
      (IsActive(Step(w, g, a), c) <==> IsActive(w, c) && !(Enabled(w, a) && LeaseEnds(w, a, c)))
    ensures c !in w.queues ==> (IsActive(Step(w, g, a), c) <==> c in Step(w, g, a).queues)
  {
    hide Step, AllOk, LeaseEnds;
    LinkedIfOk(w, g);
    LimitsIfOk(w, g);
    if Enabled(w, a) && c in w.queues {
      StepEndsLeases(w, g, a, c);
    } else if c in w.queues {
      DisabledStep(w, g, a);
    } else if c in Step(w, g, a).queues {
      NewConsumersAreActive(w, g, a, c);
    }
  }

  lemma LimitsIfOk(w: World, g: Settings)
    requires AllOk(w, g)
    ensures LimitsAccepted(g.limits)
  {
  }

  lemma DisabledStep(w: World, g: Settings, a: Action)
    requires LimitsAccepted(g.limits) && !Enabled(w, a)
    ensures Step(w, g, a) == w
  {
  }

  /** A consumer is active if and only if it was registered, and no step since then ended
      its lease. */
  lemma {:induction false} LeaseIsItsHistory(g: Settings, actions: seq<Action>, n: nat, c: Consumer)
    requires LimitsAccepted(g.limits) && n <= |actions| && HarmlessSoFar(g, actions, n)
    ensures IsActive(Run(g, actions[..n]), c) <==>
      exists k :: 0 <= k < n && Joins(g, actions, k, c) && HeldSince(g, actions, k, n, c)
  {
    hide AllOk, Step, Harmless, LeaseEnds, Run, Enabled;
    if n == 0 {
      EmptyRun(g, actions);
    } else {
      var w := Run(g, actions[..n - 1]);
      EveryRunKeepsInv(g, actions, n - 1);
      LeaseIsItsHistory(g, actions, n - 1, c);
      RunStep(g, actions, n - 1);
      StepMovesLeases(w, g, actions[n - 1], c);
      OneStepOfLease(g, actions, n, c);
    }
  }

  lemma ReleaseLosesNoQueue(w: World, s: Session, c: Consumer)
    requires s in w.sessions && c in w.queues
    ensures w.queues.Keys <= Release(w, s, c).queues.Keys
  {
    if w.queues[c].active && IsRegistered(w.sessions[s].consumers, c) {
      TailMovesNoQueue(Unjoined(w, s, c), s);
    }
  }

  lemma AcquireLosesNoQueue(w: World, g: Settings, tab: nat, aborted: bool, newcomer: Session, c: Consumer)
    requires Linked(w) && c !in w.queues
    ensures w.queues.Keys <= Acquire(w, g, tab, aborted, newcomer, c).0.queues.Keys
  {
  }

  lemma DetachAllLosesNoQueue(w: World, reason: string)
    requires Linked(w)
    ensures w.queues.Keys <= DetachAll(w, reason).queues.Keys
  {
  }

  lemma AttachLosesNoQueue(w: World, s: Session)
    requires s in w.sessions
    ensures w.queues.Keys <= AttachResolved(w, s).queues.Keys
  {
  }

  lemma DepartureLosesNoQueue(w: World, s: Session, v: SessionView)
    requires s in w.sessions
    ensures w.queues.Keys <= Departed(w, s, v).queues.Keys
  {
  }

  lemma StepLosesNoQueue(w: World, g: Settings, a: Action)
    requires LimitsAccepted(g.limits) && Linked(w) && Enabled(w, a) && !a.DoEmit?
    ensures w.queues.Keys <= Step(w, g, a).queues.Keys
  {
    hide Acquire, Release, ReleaseTail, AttachResolved, Departed, DetachAll, Emit, DrainView, AutoAttachOffView;
    match a
    case DoAcquire(tab, aborted, newcomer, c) => AcquireLosesNoQueue(w, g, tab, aborted, newcomer, c);
    case DoDetachAll(reason) => DetachAllLosesNoQueue(w, reason);
    case DoDispose => DetachAllLosesNoQueue(w.(disposed := true), "manager_disposed");
    case DoFinishAcquire(c, aborted) => ReleaseLosesNoQueue(w, w.home[c], c);
    case DoRelease(c) => ReleaseLosesNoQueue(w, w.home[c], c);
    case DoReleaseTail(s) => TailMovesNoQueue(w, s);
    case DoAttachResolved(s) => AttachLosesNoQueue(w, s);
    case DoAttachRejected(s) => DepartureLosesNoQueue(w, s, w.sessions[s].(state := Failed, attachPending := false));
    case DoBrowserDetach(tab) =>
      if tab in w.mapped {
        var s := w.mapped[tab];
        DepartureLosesNoQueue(w, s, w.sessions[s].(state := Detached, tree := EMPTY_TREE));
      }
    case _ =>
  }

  lemma QueuesStay(w: World, g: Settings, a: Action, c: Consumer)
    requires AllOk(w, g) && c in w.queues
    ensures c in Step(w, g, a).queues
  {
    hide AllOk, Step, Enabled, Emit;
    LinkedIfOk(w, g);
    LimitsIfOk(w, g);
    if !Enabled(w, a) {
      DisabledStep(w, g, a);
    } else if a.DoEmit? {
      EmitReachesExactly(w, g, a.tab, a.source, a.event, a.wanted, a.size, c);
      EmitStep(w, g, a);
    } else {
      StepLosesNoQueue(w, g, a);
    }
  }

  lemma EmitStep(w: World, g: Settings, a: Action)
    requires LimitsAccepted(g.limits) && Linked(w) && a.DoEmit? && Enabled(w, a)
    ensures Step(w, g, a) == Emit(w, g, a.tab, a.source, a.event, a.wanted, a.size)
  {
  }

  /** A lease that was alive still is, if and only if no step has ended it since. */
  lemma {:induction false} AliveUntilEnded(g: Settings, actions: seq<Action>, k: nat, n: nat, c: Consumer)
    requires LimitsAccepted(g.limits) && k <= n <= |actions| && HarmlessSoFar(g, actions, n)
    requires IsActive(Run(g, actions[..k]), c)
    ensures IsActive(Run(g, actions[..n]), c) <==> forall j :: k <= j < n ==> !EndsAt(g, actions, j, c)
    ensures c in Run(g, actions[..n]).queues
  {
    hide AllOk, Step, Harmless, LeaseEnds, Run, Enabled;
    if k < n {
      var w := Run(g, actions[..n - 1]);
      EveryRunKeepsInv(g, actions, n - 1);
      AliveUntilEnded(g, actions, k, n - 1, c);
      RunStep(g, actions, n - 1);
      QueuesStay(w, g, actions[n - 1], c);
      StepMovesLeases(w, g, actions[n - 1], c);
      assert IsActive(Run(g, actions[..n]), c) <==> IsActive(w, c) && !EndsAt(g, actions, n - 1, c);
    }
  }

  lemma EmptyRun(g: Settings, actions: seq<Action>)
    requires LimitsAccepted(g.limits)
    ensures Run(g, actions[..0]) == NEW_WORLD
  {
  }

  /** Part of the induction: what the last step does to the history. */
  lemma OneStepOfLease(g: Settings, actions: seq<Action>, n: nat, c: Consumer)
    requires LimitsAccepted(g.limits) && 0 < n <= |actions|
    ensures (exists k :: 0 <= k < n && Joins(g, actions, k, c) && HeldSince(g, actions, k, n, c)) <==>
      Joins(g, actions, n - 1, c) ||
      (!EndsAt(g, actions, n - 1, c) &&
       exists k :: 0 <= k < n - 1 && Joins(g, actions, k, c) && HeldSince(g, actions, k, n - 1, c))
  {
    hide Joins, EndsAt;
    forall k | 0 <= k < n - 1
      ensures HeldSince(g, actions, k, n, c) <==>
        HeldSince(g, actions, k, n - 1, c) && !EndsAt(g, actions, n - 1, c)
    {
    }
    assert HeldSince(g, actions, n - 1, n, c);
    if k :| 0 <= k < n - 1 && Joins(g, actions, k, c) && HeldSince(g, actions, k, n - 1, c) {
      assert HeldSince(g, actions, k, n, c) <==> !EndsAt(g, actions, n - 1, c);
    }
  }

  /** Once the session is ready, `acquire` succeeds if and only if the caller did not abort,
      the consumer is still active and the session is attached; then nothing changes, and
      otherwise the consumer is neither active nor registered. */
  lemma LeaseGrantedIff(g: Settings, actions: seq<Action>, c: Consumer, aborted: bool)
    requires LimitsAccepted(g.limits) && HarmlessSoFar(g, actions, |actions|)
    requires Enabled(Run(g, actions), DoFinishAcquire(c, aborted))
    ensures var w := Run(g, actions);
      var x, s := Step(w, g, DoFinishAcquire(c, aborted)), w.home[c];
      s in x.sessions &&
      if IsActive(w, c) && w.sessions[s].state == Attached && !aborted
      then x == w && IsActive(x, c) && IsRegistered(x.sessions[s].consumers, c) && IsMapped(x, s)
      else !IsActive(x, c) && !IsRegistered(x.sessions[s].consumers, c)
  {
    var w := Run(g, actions);
    assert actions[..|actions|] == actions;
    EveryRunKeepsInv(g, actions, |actions|);
    hide Run;
    FinishGrantsIff(w, g, c, aborted);
  }

  lemma FinishGrantsIff(w: World, g: Settings, c: Consumer, aborted: bool)
    requires AllOk(w, g) && c in w.queues && c in w.home && w.home[c] in w.sessions
    ensures var s := w.home[c];
      var x := FinishAcquire(w, s, c, aborted);
      s in x.sessions &&
      if IsActive(w, c) && w.sessions[s].state == Attached && !aborted
      then x == w && IsActive(x, c) && IsRegistered(x.sessions[s].consumers, c) && IsMapped(x, s)
      else !IsActive(x, c) && !IsRegistered(x.sessions[s].consumers, c)
  {
    assert Inv(w, g);
    hide *;
    var s := w.home[c];
    var x := FinishAcquire(w, s, c, aborted);
    FinishIsRelease(w, c, aborted);
    ReleaseKeepsInv(w, g, s, c);
    FinishEndsOne(w, g, c, aborted, c);
    RegisteredIffActive(x, g, s, c);
    if IsActive(w, c) { ActiveIsRegistered(w, g, c); }
  }

  lemma FinishIsRelease(w: World, c: Consumer, aborted: bool)
    requires c in w.queues && c in w.home && w.home[c] in w.sessions
    ensures var s := w.home[c];
      var x := FinishAcquire(w, s, c, aborted);
      s in x.sessions && x.home == w.home &&
      if IsActive(w, c) && w.sessions[s].state == Attached && !aborted then x == w else x == Release(w, s, c)
  {
    hide ReleaseTail;
    ReleaseKeepsSessions(w, w.home[c], c);
    TailKeepsHome(Unjoined(w, w.home[c], c), w.home[c]);
  }

  lemma TailKeepsHome(w: World, s: Session)
    requires s in w.sessions
    ensures ReleaseTail(w, s).home == w.home
  {
  }

  // ---------------------------------------------------------------------
  // The state of one session
  // ---------------------------------------------------------------------

  /** The last consumer of `s` goes with this step. */
  predicate LastOneGoes(w: World, a: Action, s: Session)
    requires s in w.sessions
  {
    (a.DoRelease? || a.DoFinishAcquire?) &&
    IsActive(w, a.consumer) && a.consumer in w.home && w.home[a.consumer] == s && LeaseEnds(w, a, a.consumer) &&
    w.sessions[s].consumers.Keys == {a.consumer.id}
  }

  /** The state machine of a session, as its tab sees it. */
  function NextState(w: World, a: Action, s: Session): SessionState
    requires s in w.sessions
  {
    var v := w.sessions[s];
    match a
    case DoAttachResolved(t) =>
      if t != s then v.state
      else if v.closeRequested == "" && v.consumers != map[] && !w.disposed then Attached
      else Detaching
    case DoAttachRejected(t) => if t == s then Failed else v.state
    case DoDetachSettled(t) => if t == s then Detached else v.state
    case DoBrowserDetach(tab) => if tab == v.key && IsMapped(w, s) then Detached else v.state
    case DoDetachAll(_) => if v.state == Attached then Detaching else v.state
    case DoDispose => if v.state == Attached && !w.disposed then Detaching else v.state
    case _ => if LastOneGoes(w, a, s) && v.state == Attached then Detaching else v.state
  }

  lemma AcquireKeepsState(w: World, g: Settings, tab: nat, aborted: bool, newcomer: Session, c: Consumer, s: Session)
    requires Linked(w) && newcomer !in w.sessions && s in w.sessions
    ensures var x := Acquire(w, g, tab, aborted, newcomer, c).0;
      s in x.sessions && x.sessions[s].state == w.sessions[s].state
  {
  }

  lemma AttachState(w: World, t: Session, s: Session)
    requires t in w.sessions && s in w.sessions
    ensures var x := AttachResolved(w, t);
      s in x.sessions && x.sessions[s].state == NextState(w, DoAttachResolved(t), s)
  {
    hide IsMapped, LastOneGoes, Close;
    var v := w.sessions[t].(state := Attached, attachPending := false, attachSucceeded := true);
    var reason := if v.closeRequested != "" then v.closeRequested else "unused_session";
    CloseState(Restated(w, t, v), t, reason, s);
    assert |v.consumers| == 0 <==> v.consumers == map[];
  }

  lemma CloseState(w: World, t: Session, reason: string, s: Session)
    requires t in w.sessions && s in w.sessions && w.sessions[t].state == Attached
    ensures var x := Close(w, t, reason, false);
      s in x.sessions && x.sessions[s].state == if s == t then Detaching else w.sessions[s].state
  {
  }

  lemma DetachAllState(w: World, g: Settings, disposed: bool, reason: string, s: Session)
    requires Inv(w, g) && s in w.sessions
    ensures var x := DetachAll(w.(disposed := disposed), reason);
      s in x.sessions &&
      x.sessions[s].state == if w.sessions[s].state == Attached then Detaching else w.sessions[s].state
  {
    assert SessionOk(w, g, s);
  }

  lemma DepartedState(w: World, t: Session, v: SessionView, s: Session)
    requires t in w.sessions && s in w.sessions
    ensures var x := Departed(w, t, v);
      s in x.sessions && x.sessions[s].state == if s == t then v.state else w.sessions[s].state
  {
  }

  lemma BrowserState(w: World, g: Settings, tab: nat, s: Session)
    requires Inv(w, g) && s in w.sessions
    ensures var x := BrowserDetach(w, tab);
      s in x.sessions &&
      x.sessions[s].state == if tab == w.sessions[s].key && IsMapped(w, s) then Detached else w.sessions[s].state
  {
    MappedByKey(w, g);
    BrowserDeparts(w, tab);
    hide Inv, Departed, BrowserDetach;
    if tab in w.mapped {
      var t := w.mapped[tab];
      DepartedState(w, t, w.sessions[t].(state := Detached, tree := EMPTY_TREE), s);
    }
  }

  lemma ReleaseIsTail(w: World, t: Session, c: Consumer)
    requires t in w.sessions && c in w.queues
    ensures if IsActive(w, c) && IsRegistered(w.sessions[t].consumers, c)
            then Release(w, t, c) == ReleaseTail(Unjoined(w, t, c), t)
            else Release(w, t, c).sessions == w.sessions
  {
    hide ReleaseTail;
  }

  lemma TailState(w: World, t: Session, s: Session)
    requires t in w.sessions && s in w.sessions
    ensures var x := ReleaseTail(w, t);
      s in x.sessions &&
      x.sessions[s].state ==
        if s == t && w.sessions[t].consumers == map[] && w.sessions[t].state == Attached then Detaching
        else w.sessions[s].state
  {
  }

  lemma UnjoinedState(w: World, t: Session, c: Consumer, s: Session)
    requires t in w.sessions && c in w.queues && s in w.sessions && IsRegistered(w.sessions[t].consumers, c)
    ensures var x := Unjoined(w, t, c);
      && x.sessions.Keys == w.sessions.Keys && x.sessions[s].state == w.sessions[s].state
      && (x.sessions[t].consumers == map[] <==> w.sessions[t].consumers.Keys == {c.id})
  {
    var left := w.sessions[t].consumers - {c.id};
    assert left.Keys == w.sessions[t].consumers.Keys - {c.id};
    assert left == map[] <==> left.Keys == {};
  }

  lemma ReleaseState(w: World, g: Settings, c: Consumer, s: Session)
    requires Inv(w, g) && c in w.queues && c in w.home && w.home[c] in w.sessions && s in w.sessions
    ensures var x := Release(w, w.home[c], c);
      s in x.sessions &&
      x.sessions[s].state ==
        if IsActive(w, c) && w.home[c] == s && w.sessions[s].consumers.Keys == {c.id} && w.sessions[s].state == Attached
        then Detaching else w.sessions[s].state
  {
    hide *;
    var t := w.home[c];
    RegisteredIffActive(w, g, t, c);
    ReleaseIsTail(w, t, c);
    if IsActive(w, c) {
      UnjoinedState(w, t, c, s);
      UnjoinedState(w, t, c, t);
      TailState(Unjoined(w, t, c), t, s);
    }
  }

  lemma TailKeepsState(w: World, g: Settings, t: Session, s: Session)
    requires Inv(w, g) && t in w.sessions && s in w.sessions
    ensures var x := ReleaseTail(w, t);
      s in x.sessions && x.sessions[s].state == w.sessions[s].state
  {
    TailState(w, t, s);
    assert SessionOk(w, g, t);
    hide Inv, ReleaseTail, RegisteredOk, CountsOk;
  }

  lemma EmitKeepsState(w: World, g: Settings, tab: nat, source: string, e: Event, wanted: set<Consumer>, size: nat,
                       s: Session)
    requires LimitsAccepted(g.limits) && Linked(w) && s in w.sessions
    ensures var x := Emit(w, g, tab, source, e, wanted, size);
      s in x.sessions && x.sessions[s].state == w.sessions[s].state
  {
    hide EventView;
  }

  /** Every session follows its state machine. */
  lemma SessionFollowsItsMachine(w: World, g: Settings, a: Action, s: Session)
    requires AllOk(w, g) && Enabled(w, a) && s in w.sessions
    ensures s in Step(w, g, a).sessions && Step(w, g, a).sessions[s].state == NextState(w, a, s)
  {
    hide Acquire, Release, ReleaseTail, AttachResolved, Departed, DetachAll, Emit, Inv, QueuesFine, AutoAttachOffView,
      BrowserDetach, IsMapped;
    LinkedIfOk(w, g);
    LimitsIfOk(w, g);
    match a
    case DoAcquire(tab, aborted, newcomer, c) => AcquireKeepsState(w, g, tab, aborted, newcomer, c, s);
    case DoFinishAcquire(c, aborted) => ReleaseState(w, g, c, s);
    case DoRelease(c) => ReleaseState(w, g, c, s);
    case DoReleaseTail(t) => TailKeepsState(w, g, t, s);
    case DoAttachResolved(t) => AttachState(w, t, s);
    case DoAttachRejected(t) => DepartedState(w, t, w.sessions[t].(state := Failed, attachPending := false), s);
    case DoBrowserDetach(tab) => BrowserState(w, g, tab, s);
    case DoDetachAll(reason) => DetachAllState(w, g, w.disposed, reason, s);
    case DoDispose => DetachAllState(w, g, true, "manager_disposed", s);
    case DoEmit(tab, source, e, wanted, size) => EmitKeepsState(w, g, tab, source, e, wanted, size, s);
    case _ =>
  }

  /** An event reaches exactly the consumers registered with a tab that is attached, that
      asked for it, and that include child targets if it comes from one. */
  lemma EmitReachesExactly(w: World, g: Settings, tab: nat, source: string, e: Event, wanted: set<Consumer>, size: nat,
                           c: Consumer)
    requires AllOk(w, g) && c in w.queues
    ensures var x := Emit(w, g, tab, source, e, wanted, size);
      c in x.queues &&
      var reached :=
        && IsActive(w, c) && w.home[c] in w.sessions && w.sessions[w.home[c]].key == tab
        && w.sessions[w.home[c]].state == Attached
        && (source == "" || (source in w.sessions[w.home[c]].tree.children && c.includeChildTargets))
        && c in wanted;
      x.queues[c].offered == w.queues[c].offered + (if reached then 1 else 0) &&
      (!reached ==> x.queues[c] == w.queues[c])
  {
    hide *;
    AllOkParts(w, g);
    if IsActive(w, c) {
      ActiveIsRegistered(w, g, c);
      HomeIsMapped(w, w.home[c]);
    }
    MappedByKey(w, g);
    EmittedQueue(w, g, tab, source, e, wanted, size, c);
    if tab in w.mapped { RegisteredIffActive(w, g, w.mapped[tab], c); }
  }

  lemma AllOkParts(w: World, g: Settings)
    requires AllOk(w, g)
    ensures Inv(w, g) && LimitsAccepted(g.limits)
  {
  }

  lemma EmittedQueue(w: World, g: Settings, tab: nat, source: string, e: Event, wanted: set<Consumer>, size: nat,
                     c: Consumer)
    requires LimitsAccepted(g.limits) && Linked(w) && c in w.queues
    ensures var x := Emit(w, g, tab, source, e, wanted, size);
      c in x.queues &&
      x.queues[c] ==
        if tab in w.mapped && w.mapped[tab] in w.sessions && w.sessions[w.mapped[tab]].state == Attached
           && (source == "" || source in w.sessions[w.mapped[tab]].tree.children)
           && IsRegistered(w.sessions[w.mapped[tab]].consumers, c) && c in wanted
           && (source == "" || c.includeChildTargets)
        then OfferView(w.queues[c], size, g.limits) else w.queues[c]
    ensures OfferView(w.queues[c], size, g.limits).offered == w.queues[c].offered + 1
  {
    hide EventView, OfferView;
    OfferFates(w.queues[c], size, g.limits);
  }
}
