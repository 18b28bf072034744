/** Child debugger sessions of one attached tab, and the execution contexts indexed
    by frame (chrome-extension/src/cdp-session-manager.js, the `childSessions` and
    `frameContexts` maps of a session object): what events make of them, and why the
    removal of a subtree ends.  The maps themselves are fields of `CdpSessions.Session`.

    A session id of "" stands for the root session, which has none. */
module CdpTargets {

  datatype Child = Child(parentSessionId: string)

  datatype Context = Context(contextId: int, sessionId: string, isDefault: bool)

  /** `contextKey`: the root session is written "root". */
  datatype ContextKey = ContextKey(owner: string, contextId: int)

  function KeyFor(sessionId: string, contextId: int): ContextKey {
    ContextKey(if sessionId == "" then "root" else sessionId, contextId)
  }

  type Contexts = map<ContextKey, Context>

  datatype TreeView = TreeView(children: map<string, Child>, frames: map<string, Contexts>)

  const EMPTY_TREE := TreeView(map[], map[])

  datatype Event =
    | AttachedToTarget(childSessionId: string, isIframe: bool)
    | DetachedFromTarget(childSessionId: string)
    | ContextCreated(frameId: string, contextId: int, isDefault: bool)
    | ContextDestroyed(contextId: int)
    | ContextsCleared
    | OtherEvent

  // ---------------------------------------------------------------------
  // Specification of one event
  // ---------------------------------------------------------------------

  /** `p` starts anywhere and follows child links downwards. */
  ghost predicate IsChain(children: map<string, Child>, p: seq<string>) {
    && p != []
    && forall i :: 0 < i < |p| ==> p[i] in children && children[p[i]].parentSessionId == p[i - 1]
  }

  ghost predicate Reaches(children: map<string, Child>, root: string, id: string) {
    exists p :: IsChain(children, p) && p[0] == root && p[|p| - 1] == id
  }

  /** The root and everything below it. */
  ghost function Subtree(children: map<string, Child>, root: string): (ids: set<string>) {
    set id | id in children.Keys + {root} && Reaches(children, root, id)
  }

  function Surviving(contexts: Contexts, gone: set<string>): Contexts {
    map k | k in contexts && (contexts[k].sessionId == "" || contexts[k].sessionId !in gone) :: contexts[k]
  }

  function RootContexts(contexts: Contexts): Contexts {
    map k | k in contexts && contexts[k].sessionId == "" :: contexts[k]
  }

  function ChildContexts(contexts: Contexts): Contexts {
    map k | k in contexts && contexts[k].sessionId != "" :: contexts[k]
  }

  /** Every frame's contexts filtered by `keep`; frames left empty are gone. */
  function Rewritten(frames: map<string, Contexts>, keep: Contexts -> Contexts): map<string, Contexts> {
    map f | f in frames && keep(frames[f]) != map[] :: keep(frames[f])
  }

  function Pruned(frames: map<string, Contexts>, gone: set<string>): map<string, Contexts> {
    Rewritten(frames, contexts => Surviving(contexts, gone))
  }

  function WithoutKey(frames: map<string, Contexts>, key: ContextKey): map<string, Contexts> {
    Rewritten(frames, (contexts: Contexts) => contexts - {key})
  }

  function WithContext(v: TreeView, source: string, frameId: string, contextId: int, isDefault: bool): TreeView {
    var contexts := if frameId in v.frames then v.frames[frameId] else map[];
    v.(frames := v.frames[frameId := contexts[KeyFor(source, contextId) := Context(contextId, source, isDefault)]])
  }

  ghost function RemoveTreeView(v: TreeView, root: string): TreeView {
    var gone := Subtree(v.children, root);
    TreeView(v.children - gone, Pruned(v.frames, gone))
  }

  /** `handleEvent` up to the fan-out, on an attached session. */
  ghost function EventView(v: TreeView, source: string, childConsumers: bool, e: Event): TreeView {
    if source != "" && source !in v.children then v
    else match e
      case AttachedToTarget(id, isIframe) =>
        if childConsumers && id != "" && isIframe
        then v.(children := v.children[id := Child(source)])
        else v
      case DetachedFromTarget(id) => RemoveTreeView(v, id)
      case ContextCreated(frameId, contextId, isDefault) =>
        if frameId == "" then v else WithContext(v, source, frameId, contextId, isDefault)
      case ContextDestroyed(contextId) => v.(frames := WithoutKey(v.frames, KeyFor(source, contextId)))
      case ContextsCleared =>
        if source != "" then v.(frames := Pruned(v.frames, {source}))
        else v.(frames := Rewritten(v.frames, ChildContexts))
      case OtherEvent => v
  }

  /** The synchronous effect of `disableAutoAttach` on an enabled session. */
  function AutoAttachOffView(v: TreeView): TreeView {
    TreeView(map[], Rewritten(v.frames, RootContexts))
  }

  // ---------------------------------------------------------------------
  // The measure of the removal loop
  // ---------------------------------------------------------------------

  /** How many pending ids are not live: the second part of the removal's measure. */
  function DeadCount(pending: seq<string>, live: set<string>): nat {
    if pending == [] then 0
    else DeadCount(pending[..|pending| - 1], live) + (if pending[|pending| - 1] in live then 0 else 1)
  }

  // ---------------------------------------------------------------------
  // The removal loop
  // ---------------------------------------------------------------------

  /** What is left after the removal of the ids in `done`; nothing is touched
      before the first one. */
  function PrunedBy(frames: map<string, Contexts>, done: set<string>): map<string, Contexts> {
    if done == {} then frames else Pruned(frames, done)
  }

  /** Everything handled or waiting is below the root, and no live child of a
      handled id is forgotten. */
  ghost predicate Frontier(children: map<string, Child>, root: string, pending: seq<string>, done: set<string>) {
    && (root in done || root in pending)
    && (forall id :: id in done || id in pending ==> Reaches(children, root, id))
    && (forall c :: c in children && children[c].parentSessionId in done ==> c in done || c in pending)
    && (pending == [] ==> done != {})
  }

  lemma FrontierMoves(children: map<string, Child>, root: string, pending: seq<string>, done: set<string>,
                      found: seq<string>)
    requires pending != [] && Frontier(children, root, pending, done)
    requires forall c :: c in found <==>
      c in children && c !in done && children[c].parentSessionId == pending[|pending| - 1]
    ensures Frontier(children, root, pending[..|pending| - 1] + found, done + {pending[|pending| - 1]})
  {
    var id := pending[|pending| - 1];
    var rest := pending[..|pending| - 1];
    assert pending == rest + [id];
    forall c | c in found
      ensures Reaches(children, root, c)
    {
      ReachesChild(children, root, id, c);
    }
  }

  lemma FrontierEnds(children: map<string, Child>, root: string, done: set<string>)
    requires Frontier(children, root, [], done)
    ensures done == Subtree(children, root)
  {
    ClosedSetHoldsSubtree(children, root, done);
    forall id | id in done
      ensures id in Subtree(children, root)
    {
      ReachedIsLive(children, root, id);
    }
  }

  /** The loop invariant: `w` is `v` without the ids in `done`. */
  ghost predicate Removing(v: TreeView, w: TreeView, root: string, pending: seq<string>, done: set<string>) {
    && w == TreeView(v.children - done, PrunedBy(v.frames, done))
    && Frontier(v.children, root, pending, done)
  }

  lemma RemovalTurn(v: TreeView, w: TreeView, root: string, pending: seq<string>, done: set<string>,
                    found: seq<string>)
    requires pending != [] && Removing(v, w, root, pending, done)
    requires forall c :: c in found <==>
      c in w.children && w.children[c].parentSessionId == pending[|pending| - 1]
    ensures var id := pending[|pending| - 1];
            var rest := pending[..|pending| - 1] + found;
            var after := TreeView(w.children - {id}, Pruned(w.frames, {id}));
            Removing(v, after, root, rest, done + {id})
  {
    var id := pending[|pending| - 1];
    FrontierMoves(v.children, root, pending, done, found);
    PrunedByOneMore(v.frames, done, id);
    MinusOneMore(v.children, done, id);
  }

  lemma MinusOneMore(children: map<string, Child>, done: set<string>, id: string)
    ensures (children - done) - {id} == children - (done + {id})
  {
  }

  lemma PrunedByOneMore(frames: map<string, Contexts>, done: set<string>, id: string)
    ensures Pruned(PrunedBy(frames, done), {id}) == PrunedBy(frames, done + {id})
  {
    if done == {} {
      assert done + {id} == {id};
    } else {
      PrunedTwice(frames, done, {id});
    }
  }

  // ---------------------------------------------------------------------
  // Reachability and the measure
  // ---------------------------------------------------------------------

  lemma ReachesSelf(children: map<string, Child>, root: string)
    ensures Reaches(children, root, root)
  {
    assert IsChain(children, [root]);
  }

  lemma ReachesChild(children: map<string, Child>, root: string, id: string, c: string)
    requires Reaches(children, root, id) && c in children && children[c].parentSessionId == id
    ensures Reaches(children, root, c)
  {
    var p :| IsChain(children, p) && p[0] == root && p[|p| - 1] == id;
    assert IsChain(children, p + [c]);
  }

  lemma {:induction false} ChainStaysInClosedSet(children: map<string, Child>, p: seq<string>, ids: set<string>)
    requires IsChain(children, p) && p[0] in ids
    requires forall c :: c in children && children[c].parentSessionId in ids ==> c in ids
    ensures p[|p| - 1] in ids
  {
    if |p| > 1 {
      var q := p[..|p| - 1];
      assert IsChain(children, q);
      ChainStaysInClosedSet(children, q, ids);
    }
  }

  lemma ClosedSetHoldsSubtree(children: map<string, Child>, root: string, ids: set<string>)
    requires root in ids
    requires forall c :: c in children && children[c].parentSessionId in ids ==> c in ids
    ensures Subtree(children, root) <= ids
  {
    forall id | id in Subtree(children, root)
      ensures id in ids
    {
      var p :| IsChain(children, p) && p[0] == root && p[|p| - 1] == id;
      ChainStaysInClosedSet(children, p, ids);
    }
  }

  /** What is reached is the root or a live child. */
  lemma ReachedIsLive(children: map<string, Child>, root: string, id: string)
    requires Reaches(children, root, id)
    ensures id == root || id in children
  {
    var p :| IsChain(children, p) && p[0] == root && p[|p| - 1] == id;
    assert |p| > 1 ==> p[|p| - 1] in children;
  }

  lemma PrunedTwice(frames: map<string, Contexts>, a: set<string>, b: set<string>)
    ensures Pruned(Pruned(frames, a), b) == Pruned(frames, a + b)
  {
    forall f | f in frames
      ensures Surviving(Surviving(frames[f], a), b) == Surviving(frames[f], a + b)
    {
    }
  }

  lemma {:induction false} DeadCountOfLive(pending: seq<string>, found: seq<string>, live: set<string>)
    requires forall c :: c in found ==> c in live
    ensures DeadCount(pending + found, live) == DeadCount(pending, live)
  {
    if found == [] {
      assert pending + found == pending;
    } else {
      var all := pending + found;
      assert all[..|all| - 1] == pending + found[..|found| - 1];
      DeadCountOfLive(pending, found[..|found| - 1], live);
    }
  }

  /** One turn of the removal loop, live pending id or not. */
  lemma MeasureFalls(pending: seq<string>, found: seq<string>, children: map<string, Child>, id: string)
    requires pending != [] && id == pending[|pending| - 1]
    requires forall c :: c in found ==> c in children
    ensures id in children ==> |children - {id}| < |children|
    ensures id !in children ==>
      && children - {id} == children
      && DeadCount(pending[..|pending| - 1] + found, children.Keys) < DeadCount(pending, children.Keys)
  {
    if id in children {
      assert (children - {id}).Keys == children.Keys - {id};
    } else {
      DeadCountOfLive(pending[..|pending| - 1], found, children.Keys);
    }
  }

  // ---------------------------------------------------------------------
  // What every event keeps
  // ---------------------------------------------------------------------

  /** Parents are the root or live; child contexts belong to live children and are
      filed under their own key; no frame is kept without contexts. */
  ghost predicate WellFormed(v: TreeView) {
    && "" !in v.children
    && (forall c :: c in v.children ==>
          v.children[c].parentSessionId == "" || v.children[c].parentSessionId in v.children)
    && (forall f :: f in v.frames ==> v.frames[f] != map[])
    && (forall f, k :: f in v.frames && k in v.frames[f] ==>
          var context := v.frames[f][k];
          && (context.sessionId == "" || context.sessionId in v.children)
          && k == KeyFor(context.sessionId, context.contextId))
  }

  lemma EmptyTreeIsWellFormed()
    ensures WellFormed(EMPTY_TREE)
  {
  }

  /** A child survives a removal exactly when its whole line of parents does. */
  lemma SurvivorsKeepTheirParents(v: TreeView, root: string, c: string)
    requires WellFormed(v) && c in v.children && c !in Subtree(v.children, root)
    ensures var parent := v.children[c].parentSessionId;
            parent == "" || (parent in v.children && parent !in Subtree(v.children, root))
  {
    var parent := v.children[c].parentSessionId;
    if parent in Subtree(v.children, root) {
      ReachesChild(v.children, root, parent, c);
    }
  }

  lemma RemoveTreeKeepsWellFormed(v: TreeView, root: string)
    requires WellFormed(v)
    ensures WellFormed(RemoveTreeView(v, root))
  {
    var gone := Subtree(v.children, root);
    forall c | c in v.children - gone
      ensures v.children[c].parentSessionId == "" || v.children[c].parentSessionId in v.children - gone
    {
      SurvivorsKeepTheirParents(v, root, c);
    }
  }

  lemma EventKeepsWellFormed(v: TreeView, source: string, childConsumers: bool, e: Event)
    requires WellFormed(v)
    ensures WellFormed(EventView(v, source, childConsumers, e))
  {
    if e.DetachedFromTarget? {
      RemoveTreeKeepsWellFormed(v, e.childSessionId);
    } else if e.ContextCreated? {
      var contexts := WithContext(v, source, e.frameId, e.contextId, e.isDefault).frames[e.frameId];
      assert KeyFor(source, e.contextId) in contexts;
    }
  }

  lemma AutoAttachOffKeepsWellFormed(v: TreeView)
    requires WellFormed(v)
    ensures WellFormed(AutoAttachOffView(v))
  {
  }

  /** Re-parenting can cut a cycle off from the root: two live children, each the
      parent of the other.  Removing either removes both. */
  lemma CycleIsRemovedWhole(v: TreeView, a: string, b: string)
    requires a in v.children && b in v.children
    requires v.children[a].parentSessionId == b && v.children[b].parentSessionId == a
    ensures a !in RemoveTreeView(v, a).children && b !in RemoveTreeView(v, a).children
  {
    ReachesSelf(v.children, a);
    ReachesChild(v.children, a, a, b);
  }

  // ---------------------------------------------------------------------
  // Which children and contexts there are, from the history of events alone
  // ---------------------------------------------------------------------

  /** What an attached session is told, or that its auto-attach is switched off. */
  datatype Item = Told(source: string, childConsumers: bool, event: Event) | Off

  /** Events of the root, and of live child sessions, are heard. */
  ghost predicate IsHeard(h: seq<Item>, k: nat)
    requires k < |h|
    decreases |h|, 0
  {
    h[k].Told? && (h[k].source == "" || Live(h[..k], h[k].source))
  }

  /** Event `k` announces the child session `id`. */
  ghost predicate Announces(h: seq<Item>, k: nat, id: string)
    requires k < |h|
    decreases |h|, 1
  {
    IsHeard(h, k) && h[k].childConsumers && h[k].event == AttachedToTarget(id, true) && id != ""
  }

  /** Item `k` removes the child session `id`, or one that it was announced through. */
  ghost predicate Removes(h: seq<Item>, k: nat, id: string)
    requires k < |h|
    decreases |h|, 1
  {
    h[k].Off? || (IsHeard(h, k) && h[k].event.DetachedFromTarget? && Below(h[..k], h[k].event.childSessionId, id))
  }

  /** Announced, and not removed since. */
  ghost predicate Live(h: seq<Item>, id: string)
    decreases |h|, 3
  {
    exists k :: 0 <= k < |h| && Announces(h, k, id) && NotRemoved(h, k, id)
  }

  ghost predicate NotRemoved(h: seq<Item>, k: nat, id: string)
    requires k < |h|
    decreases |h|, 2
  {
    forall j :: k < j < |h| ==> !Removes(h, j, id)
  }

  /** Who announced `id` last. */
  ghost function Announcer(h: seq<Item>, id: string): string
    decreases |h|, 3
  {
    if h == [] then ""
    else if h[|h| - 1].Told? && Announces(h, |h| - 1, id) then h[|h| - 1].source
    else Announcer(h[..|h| - 1], id)
  }

  /** `id` is `root`, or a live session announced through it. */
  ghost predicate Below(h: seq<Item>, root: string, id: string)
    decreases |h|, 5
  {
    exists p :: IsLine(h, p) && p[0] == root && p[|p| - 1] == id
  }

  ghost predicate IsLine(h: seq<Item>, p: seq<string>)
    decreases |h|, 4
  {
    p != [] && forall i :: 0 < i < |p| ==> Live(h, p[i]) && Announcer(h, p[i]) == p[i - 1]
  }

  ghost function TreeOf(h: seq<Item>): TreeView {
    if h == [] then EMPTY_TREE
    else
      AfterItem(TreeOf(h[..|h| - 1]), h[|h| - 1])
  }

  ghost function AfterItem(v: TreeView, e: Item): TreeView {
    match e
    case Told(source, childConsumers, event) => EventView(v, source, childConsumers, event)
    case Off => AutoAttachOffView(v)
  }

  lemma TreeOfMore(h: seq<Item>, e: Item)
    ensures TreeOf(h + [e]) == AfterItem(TreeOf(h), e)
  {
    assert (h + [e])[..|h|] == h;
  }

  lemma SameBefore(h: seq<Item>, e: Item, k: nat, id: string)
    requires k < |h|
    ensures IsHeard(h + [e], k) == IsHeard(h, k)
    ensures Announces(h + [e], k, id) == Announces(h, k, id) && Removes(h + [e], k, id) == Removes(h, k, id)
  {
    assert (h + [e])[..k] == h[..k];
  }

  lemma LiveLater(h: seq<Item>, e: Item, id: string)
    ensures Live(h + [e], id) <==>
      Announces(h + [e], |h|, id) || (Live(h, id) && !Removes(h + [e], |h|, id))
    ensures Announcer(h + [e], id) == if e.Told? && Announces(h + [e], |h|, id) then e.source else Announcer(h, id)
  {
    var more := h + [e];
    assert more[..|h|] == h;
    forall k | 0 <= k < |h|
      ensures Announces(more, k, id) == Announces(h, k, id)
      ensures NotRemoved(more, k, id) <==> NotRemoved(h, k, id) && !Removes(more, |h|, id)
    {
      SameBefore(h, e, k, id);
      forall j | k < j < |h|
        ensures Removes(more, j, id) == Removes(h, j, id)
      {
        SameBefore(h, e, j, id);
      }
    }
    if Announces(more, |h|, id) { assert NotRemoved(more, |h|, id); }
    hide NotRemoved, Announces, Removes;
    if k :| 0 <= k < |h| && Announces(h, k, id) && NotRemoved(h, k, id) {
      assert Announces(more, k, id);
    }
  }

  /** The children of the tree are the live sessions, each under its announcer. */
  ghost predicate ChildrenOk(children: map<string, Child>, h: seq<Item>) {
    && (forall id :: id in children <==> Live(h, id))
    && (forall id :: id in children ==> children[id].parentSessionId == Announcer(h, id))
  }

  lemma LinesAreChains(children: map<string, Child>, h: seq<Item>, root: string, id: string)
    requires ChildrenOk(children, h)
    ensures Reaches(children, root, id) <==> Below(h, root, id)
  {
    hide Live, Announcer;
    forall p
      ensures IsChain(children, p) <==> IsLine(h, p)
    {
    }
    if Reaches(children, root, id) {
      var p :| IsChain(children, p) && p[0] == root && p[|p| - 1] == id;
      assert IsLine(h, p);
    }
    if Below(h, root, id) {
      var p :| IsLine(h, p) && p[0] == root && p[|p| - 1] == id;
      assert IsChain(children, p);
    }
  }

  lemma RemovedAreTheSubtree(v: TreeView, h: seq<Item>, root: string, id: string)
    requires ChildrenOk(v.children, h) && id in v.children
    ensures id in Subtree(v.children, root) <==> Below(h, root, id)
  {
    LinesAreChains(v.children, h, root, id);
  }

  lemma ItemKeepsChild(v: TreeView, h: seq<Item>, e: Item, id: string)
    requires ChildrenOk(v.children, h)
    ensures id in AfterItem(v, e).children <==> Live(h + [e], id)
    ensures id in AfterItem(v, e).children ==>
      AfterItem(v, e).children[id].parentSessionId == Announcer(h + [e], id)
  {
    hide Live, Announcer, Below, Subtree, Pruned, Rewritten, WithoutKey;
    assert (h + [e])[..|h|] == h;
    LiveLater(h, e, id);
    if e.Told? && e.event.DetachedFromTarget? && id in v.children {
      RemovedAreTheSubtree(v, h, e.event.childSessionId, id);
    }
  }

  lemma {:induction false} ChildrenAreTheirHistory(h: seq<Item>)
    ensures ChildrenOk(TreeOf(h).children, h)
  {
    if h != [] {
      var init, e := h[..|h| - 1], h[|h| - 1];
      assert h == init + [e];
      ChildrenAreTheirHistory(init);
      forall id
        ensures id in TreeOf(h).children <==> Live(h, id)
        ensures id in TreeOf(h).children ==> TreeOf(h).children[id].parentSessionId == Announcer(h, id)
      {
        ItemKeepsChild(TreeOf(init), init, e, id);
      }
    }
  }

  // The contexts of a frame.

  predicate SameOwner(a: string, b: string) {
    a == b || {a, b} <= {"", "root"}
  }

  /** Event `k` creates the context `c` in `frame`. */
  ghost predicate Creates(h: seq<Item>, k: nat, frame: string, c: Context)
    requires k < |h|
  {
    && IsHeard(h, k) && frame != "" && h[k].source == c.sessionId
    && h[k].event == ContextCreated(frame, c.contextId, c.isDefault)
  }

  /** Item `k` ends the context `c` of `frame`, or replaces it. */
  ghost predicate Ends(h: seq<Item>, k: nat, frame: string, c: Context)
    requires k < |h|
  {
    match h[k]
    case Off => c.sessionId != ""
    case Told(source, _, e) =>
      IsHeard(h, k) &&
      match e
      case ContextCreated(f, contextId, _) =>
        f == frame != "" && contextId == c.contextId && SameOwner(source, c.sessionId)
      case ContextDestroyed(contextId) => contextId == c.contextId && SameOwner(source, c.sessionId)
      case ContextsCleared => source == c.sessionId
      case DetachedFromTarget(x) => c.sessionId != "" && Below(h[..k], x, c.sessionId)
      case _ => false
  }

  ghost predicate NotEnded(h: seq<Item>, k: nat, frame: string, c: Context)
    requires k < |h|
  {
    forall j :: k < j < |h| ==> !Ends(h, j, frame, c)
  }

  /** Created, and not ended or replaced since. */
  ghost predicate InFrame(h: seq<Item>, frame: string, c: Context) {
    exists k :: 0 <= k < |h| && Creates(h, k, frame, c) && NotEnded(h, k, frame, c)
  }

  /** `c` is filed under its own key. */
  predicate Files(frames: map<string, Contexts>, frame: string, c: Context) {
    frame in frames &&
    var key := KeyFor(c.sessionId, c.contextId);
    key in frames[frame] && frames[frame][key] == c
  }

  lemma SameContextBefore(h: seq<Item>, e: Item, k: nat, frame: string, c: Context)
    requires k < |h|
    ensures Creates(h + [e], k, frame, c) == Creates(h, k, frame, c)
    ensures Ends(h + [e], k, frame, c) == Ends(h, k, frame, c)
  {
    assert (h + [e])[..k] == h[..k];
  }

  lemma InFrameLater(h: seq<Item>, e: Item, frame: string, c: Context)
    ensures InFrame(h + [e], frame, c) <==>
      Creates(h + [e], |h|, frame, c) || (InFrame(h, frame, c) && !Ends(h + [e], |h|, frame, c))
  {
    var more := h + [e];
    forall k | 0 <= k < |h|
      ensures Creates(more, k, frame, c) == Creates(h, k, frame, c)
      ensures NotEnded(more, k, frame, c) <==> NotEnded(h, k, frame, c) && !Ends(more, |h|, frame, c)
    {
      SameContextBefore(h, e, k, frame, c);
      forall j | k < j < |h|
        ensures Ends(more, j, frame, c) == Ends(h, j, frame, c)
      {
        SameContextBefore(h, e, j, frame, c);
      }
    }
    if Creates(more, |h|, frame, c) { assert NotEnded(more, |h|, frame, c); }
    hide NotEnded, Creates, Ends;
    if k :| 0 <= k < |h| && Creates(h, k, frame, c) && NotEnded(h, k, frame, c) {
      assert Creates(more, k, frame, c);
    }
  }

  lemma ItemKeepsContext(v: TreeView, h: seq<Item>, e: Item, frame: string, c: Context)
    requires WellFormed(v) && ChildrenOk(v.children, h) && (Files(v.frames, frame, c) <==> InFrame(h, frame, c))
    ensures Files(AfterItem(v, e).frames, frame, c) <==> InFrame(h + [e], frame, c)
  {
    hide Live, Below, Subtree, InFrame, Files, AfterItem, WellFormed;
    assert (h + [e])[..|h|] == h;
    InFrameLater(h, e, frame, c);
    if e.Told? && e.event.DetachedFromTarget? {
      if Files(v.frames, frame, c) && c.sessionId != "" {
        OwnerIsLive(v, frame, c);
        RemovedAreTheSubtree(v, h, e.event.childSessionId, c.sessionId);
      }
      RemovalEndsContexts(v, e, frame, c);
    } else {
      ItemEndsContext(v, e, frame, c);
    }
  }

  lemma OwnerIsLive(v: TreeView, frame: string, c: Context)
    requires WellFormed(v) && Files(v.frames, frame, c)
    ensures c.sessionId == "" || c.sessionId in v.children
  {
  }

  lemma RemovalEndsContexts(v: TreeView, e: Item, frame: string, c: Context)
    requires e.Told? && e.event.DetachedFromTarget?
    ensures Files(AfterItem(v, e).frames, frame, c) <==>
      Files(v.frames, frame, c) &&
      !((e.source == "" || e.source in v.children) &&
        c.sessionId != "" && c.sessionId in Subtree(v.children, e.event.childSessionId))
  {
    hide Subtree, Pruned, Files;
    PrunedFiles(v.frames, Subtree(v.children, e.event.childSessionId), frame, c);
  }

  lemma KeyedIsNotEmpty(contexts: Contexts, key: ContextKey)
    ensures key in contexts ==> contexts != map[]
  {
  }

  lemma PrunedFiles(frames: map<string, Contexts>, gone: set<string>, frame: string, c: Context)
    ensures Files(Pruned(frames, gone), frame, c) <==>
      Files(frames, frame, c) && (c.sessionId == "" || c.sessionId !in gone)
  {
    if frame in frames { KeyedIsNotEmpty(Surviving(frames[frame], gone), KeyFor(c.sessionId, c.contextId)); }
  }

  lemma UnkeyedFiles(frames: map<string, Contexts>, key: ContextKey, frame: string, c: Context)
    ensures Files(WithoutKey(frames, key), frame, c) <==>
      Files(frames, frame, c) && key != KeyFor(c.sessionId, c.contextId)
  {
    if frame in frames { KeyedIsNotEmpty(frames[frame] - {key}, KeyFor(c.sessionId, c.contextId)); }
  }

  lemma RewrittenFiles(frames: map<string, Contexts>, frame: string, c: Context)
    ensures Files(Rewritten(frames, RootContexts), frame, c) <==> Files(frames, frame, c) && c.sessionId == ""
    ensures Files(Rewritten(frames, ChildContexts), frame, c) <==> Files(frames, frame, c) && c.sessionId != ""
  {
    if frame in frames {
      KeyedIsNotEmpty(RootContexts(frames[frame]), KeyFor(c.sessionId, c.contextId));
      KeyedIsNotEmpty(ChildContexts(frames[frame]), KeyFor(c.sessionId, c.contextId));
    }
  }

  lemma CreatedFiles(v: TreeView, source: string, f: string, contextId: int, isDefault: bool, frame: string, c: Context)
    ensures Files(WithContext(v, source, f, contextId, isDefault).frames, frame, c) <==>
      || (f == frame && c == Context(contextId, source, isDefault))
      || (Files(v.frames, frame, c) && !(f == frame && KeyFor(source, contextId) == KeyFor(c.sessionId, c.contextId)))
  {
  }

  /** What an item that removes no single session does to a context. */
  predicate Kept(v: TreeView, e: Item, frame: string, c: Context) {
    match e
    case Off => Files(v.frames, frame, c) && c.sessionId == ""
    case Told(source, _, event) =>
      if source != "" && source !in v.children then Files(v.frames, frame, c)
      else match event
        case ContextCreated(f, contextId, isDefault) =>
          || (f == frame != "" && c == Context(contextId, source, isDefault))
          || (Files(v.frames, frame, c) &&
              !(f == frame != "" && contextId == c.contextId && SameOwner(source, c.sessionId)))
        case ContextDestroyed(contextId) =>
          Files(v.frames, frame, c) && !(contextId == c.contextId && SameOwner(source, c.sessionId))
        case ContextsCleared => Files(v.frames, frame, c) && c.sessionId != source
        case _ => Files(v.frames, frame, c)
  }

  lemma ItemEndsContext(v: TreeView, e: Item, frame: string, c: Context)
    requires !(e.Told? && e.event.DetachedFromTarget?)
    ensures Files(AfterItem(v, e).frames, frame, c) <==> Kept(v, e, frame, c)
  {
    hide Files, Pruned, WithoutKey, Rewritten, WithContext;
    match e
    case Off => RewrittenFiles(v.frames, frame, c);
    case Told(source, childConsumers, event) =>
      KeysAreOwned(source, c.sessionId, c.contextId);
      match event
      case ContextCreated(f, contextId, isDefault) => CreatedFiles(v, source, f, contextId, isDefault, frame, c);
      case ContextDestroyed(contextId) => UnkeyedFiles(v.frames, KeyFor(source, contextId), frame, c);
      case ContextsCleared =>
        PrunedFiles(v.frames, {source}, frame, c);
        RewrittenFiles(v.frames, frame, c);
      case _ =>
  }

  lemma KeysAreOwned(a: string, b: string, contextId: int)
    ensures KeyFor(a, contextId) == KeyFor(b, contextId) <==> SameOwner(a, b)
  {
  }

  lemma ItemKeepsWellFormed(v: TreeView, e: Item)
    requires WellFormed(v)
    ensures WellFormed(AfterItem(v, e))
  {
    match e
    case Told(source, childConsumers, event) => EventKeepsWellFormed(v, source, childConsumers, event);
    case Off => AutoAttachOffKeepsWellFormed(v);
  }

  lemma {:induction false} FilesAreTheirHistory(h: seq<Item>, frame: string, c: Context)
    ensures WellFormed(TreeOf(h)) && (Files(TreeOf(h).frames, frame, c) <==> InFrame(h, frame, c))
  {
    if h == [] {
      EmptyTreeIsWellFormed();
    } else {
      var init, e := h[..|h| - 1], h[|h| - 1];
      assert h == init + [e];
      FilesAreTheirHistory(init, frame, c);
      ChildrenAreTheirHistory(init);
      hide WellFormed, AfterItem, Files, ChildrenOk, InFrame;
      ItemKeepsContext(TreeOf(init), init, e, frame, c);
      ItemKeepsWellFormed(TreeOf(init), e);
    }
  }

  /** A frame lists exactly the contexts that were created in it and not ended since. */
  lemma ContextsAreTheirHistory(h: seq<Item>, frame: string, c: Context)
    ensures var frames := TreeOf(h).frames;
      (exists key :: frame in frames && key in frames[frame] && frames[frame][key] == c) <==> InFrame(h, frame, c)
  {
    FilesAreTheirHistory(h, frame, c);
  }

  /** Once a session is reported detached, no session announced through it is live, and no
      context of such a session is left. */
  lemma DetachRemovesAllBelow(h: seq<Item>, e: Item, id: string, frame: string, c: Context)
    requires e.Told? && e.event.DetachedFromTarget? && IsHeard(h + [e], |h|)
    requires Below(h, e.event.childSessionId, id)
    ensures id !in TreeOf(h + [e]).children
    ensures c.sessionId == id != "" && frame in TreeOf(h + [e]).frames ==> c !in TreeOf(h + [e]).frames[frame].Values
  {
    assert (h + [e])[..|h|] == h;
    ChildrenAreTheirHistory(h + [e]);
    ContextsAreTheirHistory(h + [e], frame, c);
    LiveLater(h, e, id);
    InFrameLater(h, e, frame, c);
    hide Live, TreeOf, InFrame, Below;
  }
}
