/** The bounded, drop-oldest event queue that every debugger consumer owns
    (chrome-extension/src/cdp-session-manager.js, `enqueueEvent`, `drainConsumer`
    and the deactivation branches).

    An event is represented by its arrival number: the n-th event offered to a
    consumer is event n-1.  What happened to each event (delivered, dropped,
    flushed) is recorded in ghost fields, so that conservation can be stated
    event by event and not only as a count. */
module CdpConsumers {

  datatype Limits = Limits(
    maxSessions: int,
    maxConsumersPerSession: int,
    maxEventsPerConsumer: int,
    maxEventBytes: int,
    maxQueuedEventBytes: int)

  /** The limits `normalizeLimits` lets through; every other combination throws. */
  predicate LimitsAccepted(l: Limits) {
    && l.maxSessions >= 1
    && l.maxConsumersPerSession >= 1
    && l.maxEventsPerConsumer >= 1
    && l.maxEventBytes >= 1
    && l.maxQueuedEventBytes >= l.maxEventBytes
  }

  datatype Queued = Queued(arrival: nat, size: nat)

  datatype Delivered = Delivered(arrival: nat, droppedBefore: nat)

  datatype QueueView = QueueView(
    queue: seq<Queued>,
    queueBytes: int,
    droppedEvents: nat,
    totalDroppedEvents: nat,
    draining: bool,
    active: bool,
    offered: nat,
    delivered: seq<Delivered>,
    dropped: seq<nat>,
    flushed: seq<nat>)

  const NEW_QUEUE := QueueView([], 0, 0, 0, false, true, 0, [], [], [])

  function Bytes(queue: seq<Queued>): nat {
    if queue == [] then 0 else queue[0].size + Bytes(queue[1..])
  }

  function Arrivals(queue: seq<Queued>): (r: seq<nat>) {
    seq(|queue|, i requires 0 <= i < |queue| => queue[i].arrival)
  }

  function DeliveredArrivals(delivered: seq<Delivered>): (r: seq<nat>) {
    seq(|delivered|, i requires 0 <= i < |delivered| => delivered[i].arrival)
  }

  function ReportedDrops(delivered: seq<Delivered>): nat {
    if delivered == [] then 0
    else ReportedDrops(delivered[..|delivered| - 1]) + delivered[|delivered| - 1].droppedBefore
  }

  /** Room for one more event of `size` bytes behind `queue`. */
  predicate Fits(queue: seq<Queued>, size: nat, l: Limits) {
    |queue| < l.maxEventsPerConsumer && Bytes(queue) + size <= l.maxQueuedEventBytes
  }

  /** How many of the oldest events are discarded to make room. */
  function DropCount(queue: seq<Queued>, size: nat, l: Limits): (k: nat)
    requires LimitsAccepted(l) && size <= l.maxEventBytes
    ensures k <= |queue|
  {
    if Fits(queue, size, l) then 0
    else
      assert queue != [] by { FullQueueIsNotEmpty(queue, size, l); }
      1 + DropCount(queue[1..], size, l)
  }

  function OfferView(v: QueueView, size: nat, l: Limits): QueueView
    requires LimitsAccepted(l)
  {
    if size > l.maxEventBytes then
      v.(offered := v.offered + 1,
         droppedEvents := v.droppedEvents + 1,
         totalDroppedEvents := v.totalDroppedEvents + 1,
         dropped := v.dropped + [v.offered])
    else
      var pushed := PushView(v, size, l);
      if v.draining then pushed else DrainView(pushed)
  }

  /** The queue with its `k` oldest events discarded. */
  function DropView(v: QueueView, k: nat): QueueView
    requires k <= |v.queue|
  {
    v.(queue := v.queue[k..],
       queueBytes := v.queueBytes - Bytes(v.queue[..k]),
       droppedEvents := v.droppedEvents + k,
       totalDroppedEvents := v.totalDroppedEvents + k,
       dropped := v.dropped + Arrivals(v.queue[..k]))
  }

  function DroppedOne(v: QueueView): QueueView
    requires v.queue != []
  {
    v.(queue := v.queue[1..],
       queueBytes := v.queueBytes - v.queue[0].size,
       droppedEvents := v.droppedEvents + 1,
       totalDroppedEvents := v.totalDroppedEvents + 1,
       dropped := v.dropped + [v.queue[0].arrival])
  }

  function PushView(v: QueueView, size: nat, l: Limits): QueueView
    requires LimitsAccepted(l) && size <= l.maxEventBytes
  {
    var d := DropView(v, DropCount(v.queue, size, l));
    d.(offered := v.offered + 1,
       queue := d.queue + [Queued(v.offered, size)],
       queueBytes := d.queueBytes + size)
  }

  /** One turn of the drain loop: hand the oldest event to the callback and
      suspend in it, or leave the loop. */
  function DrainView(v: QueueView): QueueView {
    if v.active && v.queue != [] then
      v.(queue := v.queue[1..],
         queueBytes := v.queueBytes - v.queue[0].size,
         droppedEvents := 0,
         draining := true,
         delivered := v.delivered + [Delivered(v.queue[0].arrival, v.droppedEvents)])
    else
      v.(draining := false)
  }

  function DeactivateView(v: QueueView): QueueView {
    v.(active := false, queue := [], queueBytes := 0, flushed := v.flushed + Arrivals(v.queue))
  }

  /** One consumer object.  `offered` numbers the arriving events (a number stands
      for the event's payload); the ghost fields are history. */
  class Consumer {
    const id: string
    const includeChildTargets: bool
    const limits: Limits
    var queue: seq<Queued>
    var queueBytes: int
    var droppedEvents: nat
    var totalDroppedEvents: nat
    var draining: bool
    var active: bool
    var offered: nat
    ghost var delivered: seq<Delivered>
    ghost var dropped: seq<nat>
    ghost var flushed: seq<nat>

    ghost function View(): QueueView
      reads this
    {
      QueueView(queue, queueBytes, droppedEvents, totalDroppedEvents, draining, active,
                offered, delivered, dropped, flushed)
    }

    constructor (id: string, includeChildTargets: bool, limits: Limits)
      ensures this.id == id && this.includeChildTargets == includeChildTargets
      ensures this.limits == limits
      ensures View() == NEW_QUEUE
    {
      this.id := id;
      this.includeChildTargets := includeChildTargets;
      this.limits := limits;
      queue, queueBytes, droppedEvents, totalDroppedEvents := [], 0, 0, 0;
      draining, active := false, true;
      offered, delivered, dropped, flushed := 0, [], [], [];
    }

    /** `enqueueEvent`. */
    method Enqueue(size: nat)
      requires LimitsAccepted(limits) && queueBytes == Bytes(queue)
      modifies this
      ensures View() == OfferView(old(View()), size, limits)
    {
      if size > limits.maxEventBytes {
        droppedEvents := droppedEvents + 1;
        totalDroppedEvents := totalDroppedEvents + 1;
        dropped := dropped + [offered];
        offered := offered + 1;
        return;
      }
      DropOldest(size);
      queue := queue + [Queued(offered, size)];
      queueBytes := queueBytes + size;
      offered := offered + 1;
      if !draining {
        DrainTurn();
      }
    }

    /** The loop of `enqueueEvent`.  The assertion is the guard of the source's
        `if (!dropped) break`: that branch is never taken. */
    method DropOldest(size: nat)
      requires LimitsAccepted(limits) && queueBytes == Bytes(queue) && size <= limits.maxEventBytes
      modifies this
      ensures View() == DropView(old(View()), DropCount(old(queue), size, limits))
    {
      ghost var v := View();
      ghost var k := 0;
      DropNothing(v);
      while |queue| >= limits.maxEventsPerConsumer || queueBytes + size > limits.maxQueuedEventBytes
        invariant k <= |v.queue| && View() == DropView(v, k) && queueBytes == Bytes(queue)
        invariant DropCount(v.queue, size, limits) == k + DropCount(queue, size, limits)
        decreases |queue|
      {
        FullQueueIsNotEmpty(queue, size, limits);
        assert |queue| > 0;
        DropOneMore(v, k);
        DropFirst();
        k := k + 1;
      }
    }

    method DropFirst()
      requires |queue| > 0
      modifies this
      ensures View() == DroppedOne(old(View()))
    {
      var oldest := queue[0];
      queue := queue[1..];
      queueBytes := queueBytes - oldest.size;
      droppedEvents := droppedEvents + 1;
      totalDroppedEvents := totalDroppedEvents + 1;
      dropped := dropped + [oldest.arrival];
    }

    /** The part of `drainConsumer` between two awaits of the callback. */
    method DrainTurn()
      modifies this
      ensures View() == DrainView(old(View()))
    {
      draining := true;
      if active && |queue| > 0 {
        var queued := queue[0];
        queue := queue[1..];
        queueBytes := queueBytes - queued.size;
        var droppedBefore := droppedEvents;
        droppedEvents := 0;
        delivered := delivered + [Delivered(queued.arrival, droppedBefore)];
      } else {
        draining := false;
      }
    }

    /** What `releaseConsumer` and both deactivation loops do to one consumer. */
    method Deactivate()
      modifies this
      ensures View() == DeactivateView(old(View()))
    {
      flushed := flushed + Arrivals(queue);
      active := false;
      queue := [];
      queueBytes := 0;
    }
  }

  // ---------------------------------------------------------------------
  // What the drop loop removes
  // ---------------------------------------------------------------------

  lemma FullQueueIsNotEmpty(queue: seq<Queued>, size: nat, l: Limits)
    requires LimitsAccepted(l) && size <= l.maxEventBytes && !Fits(queue, size, l)
    ensures queue != []
  {
  }

  lemma {:induction false} BytesOfAppend(a: seq<Queued>, b: seq<Queued>)
    ensures Bytes(a + b) == Bytes(a) + Bytes(b)
  {
    if a == [] {
      assert a + b == b;
    } else {
      assert (a + b)[0] == a[0] && (a + b)[1..] == a[1..] + b;
      BytesOfAppend(a[1..], b);
    }
  }

  lemma DropNothing(v: QueueView)
    ensures DropView(v, 0) == v
  {
    assert v.queue[0..] == v.queue && v.queue[..0] == [];
    assert Arrivals([]) == [] && v.dropped + [] == v.dropped;
  }

  lemma DropOneMore(v: QueueView, k: nat)
    requires k < |v.queue|
    ensures |DropView(v, k).queue| > 0 && DropView(v, k + 1) == DroppedOne(DropView(v, k))
  {
    assert v.queue[..k + 1] == v.queue[..k] + [v.queue[k]];
    BytesOfAppend(v.queue[..k], [v.queue[k]]);
    assert Bytes([v.queue[k]]) == v.queue[k].size;
    assert Arrivals(v.queue[..k + 1]) == Arrivals(v.queue[..k]) + [v.queue[k].arrival];
  }

  /** The loop keeps the longest suffix that leaves room: it makes room, and
      stopping one event earlier would not have. */
  lemma {:induction false} DropCountIsLeast(queue: seq<Queued>, size: nat, l: Limits)
    requires LimitsAccepted(l) && size <= l.maxEventBytes
    ensures Fits(queue[DropCount(queue, size, l)..], size, l)
    ensures forall j :: 0 <= j < DropCount(queue, size, l) ==> !Fits(queue[j..], size, l)
  {
    if Fits(queue, size, l) {
      assert queue[0..] == queue;
    } else {
      FullQueueIsNotEmpty(queue, size, l);
      var k := DropCount(queue[1..], size, l);
      DropCountIsLeast(queue[1..], size, l);
      assert queue[1..][k..] == queue[1 + k..];
      forall j | 0 <= j < 1 + k
        ensures !Fits(queue[j..], size, l)
      {
        if j == 0 {
          assert queue[0..] == queue;
        } else {
          assert queue[1..][j - 1..] == queue[j..];
        }
      }
    }
  }

  // ---------------------------------------------------------------------
  // Every run of one consumer
  // ---------------------------------------------------------------------

  /** Everything that can happen to a registered consumer.  `Offer` on an
      inactive consumer and `Resume` of a drain that is not running do not occur:
      only registered consumers are offered events, registered consumers are
      active, and a drain is resumed only by the callback it is waiting for. */
  datatype Action = Offer(size: nat) | Resume | Deactivate

  function Step(v: QueueView, a: Action, l: Limits): QueueView
    requires LimitsAccepted(l)
  {
    match a
    case Offer(size) => if v.active then OfferView(v, size, l) else v
    case Resume => if v.draining then DrainView(v) else v
    case Deactivate => DeactivateView(v)
  }

  function Run(actions: seq<Action>, l: Limits): QueueView
    requires LimitsAccepted(l)
  {
    if actions == [] then NEW_QUEUE
    else Step(Run(actions[..|actions| - 1], l), actions[|actions| - 1], l)
  }

  /** The fate of every event offered so far, as one multiset of arrivals. */
  function Fates(v: QueueView): multiset<nat> {
    multiset(DeliveredArrivals(v.delivered)) + multiset(v.dropped)
    + multiset(Arrivals(v.queue)) + multiset(v.flushed)
  }

  function FirstNumbers(n: nat): (r: seq<nat>)
    ensures |r| == n && forall i :: 0 <= i < n ==> r[i] == i
  {
    seq(n, i => i)
  }

  /** Bounds of the queue, and the meaning of its counters. */
  predicate Bounded(v: QueueView, l: Limits) {
    && v.queueBytes == Bytes(v.queue) <= l.maxQueuedEventBytes
    && |v.queue| <= l.maxEventsPerConsumer
    && (v.active && !v.draining ==> v.queue == [])
    && (!v.active ==> v.queue == [])
    && v.totalDroppedEvents == |v.dropped|
    && ReportedDrops(v.delivered) + v.droppedEvents == v.totalDroppedEvents
  }

  /** Distinct arrival numbers below `offered`, in order. */
  predicate InOrder(s: seq<nat>, offered: nat) {
    && (forall i, j :: 0 <= i < j < |s| ==> s[i] < s[j])
    && (forall i :: 0 <= i < |s| ==> s[i] < offered)
  }

  /** Delivered events, then queued ones, in order of arrival. */
  predicate InArrivalOrder(v: QueueView) {
    InOrder(DeliveredArrivals(v.delivered) + Arrivals(v.queue), v.offered)
  }

  ghost predicate Conserved(v: QueueView) {
    Fates(v) == multiset(FirstNumbers(v.offered))
  }

  lemma BytesOfSplit(queue: seq<Queued>, k: nat)
    requires k <= |queue|
    ensures Bytes(queue) == Bytes(queue[..k]) + Bytes(queue[k..])
  {
    assert queue == queue[..k] + queue[k..];
    BytesOfAppend(queue[..k], queue[k..]);
  }

  lemma ReportedDropsOfSnoc(delivered: seq<Delivered>, d: Delivered)
    ensures ReportedDrops(delivered + [d]) == ReportedDrops(delivered) + d.droppedBefore
  {
    assert (delivered + [d])[..|delivered|] == delivered;
  }

  lemma DrainKeepsBounds(v: QueueView, l: Limits)
    requires v.queueBytes == Bytes(v.queue) <= l.maxQueuedEventBytes
    requires |v.queue| <= l.maxEventsPerConsumer
    requires !v.active ==> v.queue == []
    requires v.totalDroppedEvents == |v.dropped|
    requires ReportedDrops(v.delivered) + v.droppedEvents == v.totalDroppedEvents
    ensures Bounded(DrainView(v), l)
  {
    if v.active && v.queue != [] {
      ReportedDropsOfSnoc(v.delivered, Delivered(v.queue[0].arrival, v.droppedEvents));
    }
  }

  lemma OfferKeepsBounds(v: QueueView, size: nat, l: Limits)
    requires LimitsAccepted(l) && Bounded(v, l) && v.active
    ensures Bounded(OfferView(v, size, l), l)
  {
    if size <= l.maxEventBytes {
      var k := DropCount(v.queue, size, l);
      DropCountIsLeast(v.queue, size, l);
      BytesOfSplit(v.queue, k);
      BytesOfAppend(v.queue[k..], [Queued(v.offered, size)]);
      assert Bytes([Queued(v.offered, size)]) == size;
      DrainKeepsBounds(PushView(v, size, l), l);
    }
  }

  lemma DrainKeepsOrder(v: QueueView)
    requires InArrivalOrder(v)
    ensures InArrivalOrder(DrainView(v))
  {
    var w := DrainView(v);
    assert DeliveredArrivals(w.delivered) + Arrivals(w.queue)
        == DeliveredArrivals(v.delivered) + Arrivals(v.queue);
  }

  lemma PushKeepsOrder(v: QueueView, size: nat, l: Limits)
    requires LimitsAccepted(l) && InArrivalOrder(v) && size <= l.maxEventBytes
    ensures InArrivalOrder(PushView(v, size, l))
  {
    var k := DropCount(v.queue, size, l);
    var before := DeliveredArrivals(v.delivered) + Arrivals(v.queue);
    var w := PushView(v, size, l);
    var after := DeliveredArrivals(w.delivered) + Arrivals(w.queue);
    var d := |v.delivered|;
    var kept := before[..d] + before[d + k..];
    assert after == kept + [v.offered] by {
      assert before[..d] == DeliveredArrivals(v.delivered);
      assert before[d + k..] == Arrivals(v.queue[k..]);
      assert Arrivals(w.queue) == Arrivals(v.queue[k..]) + [v.offered];
    }
    WithoutMiddleInOrder(before, v.offered, d, k);
    WithNextInOrder(kept, v.offered);
  }

  lemma WithoutMiddleInOrder(s: seq<nat>, offered: nat, d: nat, k: nat)
    requires d + k <= |s| && InOrder(s, offered)
    ensures InOrder(s[..d] + s[d + k..], offered)
  {
    var t := s[..d] + s[d + k..];
    assert forall i :: 0 <= i < |t| ==> t[i] == s[if i < d then i else i + k];
  }

  lemma WithNextInOrder(s: seq<nat>, offered: nat)
    requires InOrder(s, offered)
    ensures InOrder(s + [offered], offered + 1)
  {
  }

  lemma OfferKeepsOrder(v: QueueView, size: nat, l: Limits)
    requires LimitsAccepted(l) && InArrivalOrder(v)
    ensures InArrivalOrder(OfferView(v, size, l))
  {
    if size <= l.maxEventBytes {
      PushKeepsOrder(v, size, l);
      DrainKeepsOrder(PushView(v, size, l));
    }
  }

  lemma DrainConserves(v: QueueView)
    ensures Fates(DrainView(v)) == Fates(v)
  {
    if v.active && v.queue != [] {
      var w := DrainView(v);
      assert DeliveredArrivals(w.delivered) == DeliveredArrivals(v.delivered) + [v.queue[0].arrival];
      assert Arrivals(v.queue) == [v.queue[0].arrival] + Arrivals(w.queue);
    }
  }

  lemma PushConserves(v: QueueView, size: nat, l: Limits)
    requires LimitsAccepted(l) && size <= l.maxEventBytes
    ensures Fates(PushView(v, size, l)) == Fates(v) + multiset{v.offered}
  {
    var k := DropCount(v.queue, size, l);
    var w := PushView(v, size, l);
    assert Arrivals(w.queue) == Arrivals(v.queue[k..]) + [v.offered];
    assert Arrivals(v.queue) == Arrivals(v.queue[..k]) + Arrivals(v.queue[k..]);
  }

  /** One more event has a fate. */
  lemma OfferFates(v: QueueView, size: nat, l: Limits)
    requires LimitsAccepted(l)
    ensures OfferView(v, size, l).offered == v.offered + 1
    ensures Fates(OfferView(v, size, l)) == Fates(v) + multiset{v.offered}
  {
    if size <= l.maxEventBytes {
      PushConserves(v, size, l);
      DrainConserves(PushView(v, size, l));
      hide Fates;
    } else {
      assert multiset(v.dropped + [v.offered]) == multiset(v.dropped) + multiset{v.offered};
    }
  }

  lemma OfferConserves(v: QueueView, size: nat, l: Limits)
    requires LimitsAccepted(l) && Conserved(v)
    ensures Conserved(OfferView(v, size, l))
  {
    assert FirstNumbers(v.offered + 1) == FirstNumbers(v.offered) + [v.offered];
    hide Fates, FirstNumbers, OfferView;
    OfferFates(v, size, l);
  }

  lemma StepKeepsQueue(v: QueueView, a: Action, l: Limits)
    requires LimitsAccepted(l) && Bounded(v, l) && InArrivalOrder(v) && Conserved(v)
    ensures Bounded(Step(v, a, l), l) && InArrivalOrder(Step(v, a, l)) && Conserved(Step(v, a, l))
  {
    hide OfferView, DrainView, DeactivateView, Bounded, InArrivalOrder, Conserved;
    match a
    case Offer(size) =>
      if v.active {
        OfferKeepsBounds(v, size, l);
        OfferKeepsOrder(v, size, l);
        OfferConserves(v, size, l);
      }
    case Resume => if v.draining { ResumeKeepsQueue(v, l); }
    case Deactivate => DeactivateKeepsQueue(v, l);
  }

  lemma ResumeKeepsQueue(v: QueueView, l: Limits)
    requires Bounded(v, l) && InArrivalOrder(v) && Conserved(v)
    ensures Bounded(DrainView(v), l) && InArrivalOrder(DrainView(v)) && Conserved(DrainView(v))
  {
    DrainKeepsBounds(v, l);
    DrainKeepsOrder(v);
    DrainConserves(v);
  }

  lemma DeactivateKeepsQueue(v: QueueView, l: Limits)
    requires Bounded(v, l) && InArrivalOrder(v) && Conserved(v)
    ensures Bounded(DeactivateView(v), l) && InArrivalOrder(DeactivateView(v)) && Conserved(DeactivateView(v))
  {
    DeactivateKeepsOrder(v);
  }

  lemma DeactivateKeepsOrder(v: QueueView)
    requires InArrivalOrder(v)
    ensures InArrivalOrder(DeactivateView(v))
  {
    var order := DeliveredArrivals(v.delivered) + Arrivals(v.queue);
    WithoutMiddleInOrder(order, v.offered, |v.delivered|, |v.queue|);
    assert order[..|v.delivered|] + order[|v.delivered| + |v.queue|..]
        == DeliveredArrivals(v.delivered) + Arrivals([]);
  }

  // The same, one kind of step at a time.

  ghost predicate QueueFine(v: QueueView, l: Limits) {
    Bounded(v, l) && InArrivalOrder(v) && Conserved(v)
  }

  lemma NewQueueIsFine(l: Limits)
    requires LimitsAccepted(l)
    ensures QueueFine(NEW_QUEUE, l)
  {
    EveryRunKeepsQueue([], l);
  }

  lemma OfferKeepsFine(v: QueueView, size: nat, l: Limits)
    requires LimitsAccepted(l) && QueueFine(v, l) && v.active
    ensures QueueFine(OfferView(v, size, l), l) && OfferView(v, size, l).active
  {
    StepKeepsQueue(v, Offer(size), l);
  }

  lemma DrainKeepsFine(v: QueueView, l: Limits)
    requires LimitsAccepted(l) && QueueFine(v, l) && v.draining
    ensures QueueFine(DrainView(v), l) && DrainView(v).active == v.active
  {
    StepKeepsQueue(v, Resume, l);
  }

  lemma DeactivateKeepsFine(v: QueueView, l: Limits)
    requires LimitsAccepted(l) && QueueFine(v, l)
    ensures QueueFine(DeactivateView(v), l)
  {
    StepKeepsQueue(v, Deactivate, l);
  }

  /** Queue bounds, arrival order and event conservation in every state that any
      sequence of offers, callback completions and deactivations can reach. */
  lemma {:induction false} EveryRunKeepsQueue(actions: seq<Action>, l: Limits)
    requires LimitsAccepted(l)
    ensures Bounded(Run(actions, l), l) && InArrivalOrder(Run(actions, l)) && Conserved(Run(actions, l))
  {
    if actions == [] {
      assert DeliveredArrivals([]) == [] && Arrivals([]) == [] && FirstNumbers(0) == [];
    } else {
      EveryRunKeepsQueue(actions[..|actions| - 1], l);
      StepKeepsQueue(Run(actions[..|actions| - 1], l), actions[|actions| - 1], l);
    }
  }

  /** The counting form: offered = delivered + dropped + queued + flushed, and the
      drop counts handed to callbacks plus the pending count are all the drops. */
  lemma EveryRunBalances(actions: seq<Action>, l: Limits)
    requires LimitsAccepted(l)
    ensures var v := Run(actions, l);
            && v.offered == |v.delivered| + v.totalDroppedEvents + |v.queue| + |v.flushed|
            && ReportedDrops(v.delivered) + v.droppedEvents == v.totalDroppedEvents
  {
    EveryRunKeepsQueue(actions, l);
    var v := Run(actions, l);
    assert |Fates(v)| == |DeliveredArrivals(v.delivered)| + |v.dropped| + |Arrivals(v.queue)| + |v.flushed|;
    assert |multiset(FirstNumbers(v.offered))| == v.offered;
  }

  // ---------------------------------------------------------------------
  // Which events are dropped, from the history alone
  // ---------------------------------------------------------------------

  /** The sizes of the events offered while the consumer was active, by arrival. */
  function Sizes(actions: seq<Action>): seq<nat> {
    if actions == [] then []
    else
      var before, last := actions[..|actions| - 1], actions[|actions| - 1];
      if last.Offer? && Deactivate !in before then Sizes(before) + [last.size] else Sizes(before)
  }

  predicate Oversized(size: nat, l: Limits) {
    l.maxEventBytes < size
  }

  /** Event `a` and all later ones that are not oversized. */
  function From(sizes: seq<nat>, a: nat, l: Limits): seq<Queued> {
    if |sizes| <= a then []
    else
      var n := |sizes| - 1;
      From(sizes[..n], a, l) + if Oversized(sizes[n], l) then [] else [Queued(n, sizes[n])]
  }

  /** Event `b` does not fit behind event `a` and all that was queued after it. */
  predicate Displaces(sizes: seq<nat>, a: nat, b: nat, l: Limits)
    requires a < b < |sizes|
  {
    var behind := From(sizes[..b], a, l);
    !Oversized(sizes[b], l) &&
    (l.maxEventsPerConsumer <= |behind| || l.maxQueuedEventBytes < Bytes(behind) + sizes[b])
  }

  ghost predicate Displaced(sizes: seq<nat>, a: nat, l: Limits) {
    exists b :: a < b < |sizes| && Displaces(sizes, a, b, l)
  }

  /** What became of event `a`. */
  ghost predicate FateOk(v: QueueView, sizes: seq<nat>, a: nat, l: Limits)
    requires a < |sizes|
  {
    && (a in Arrivals(v.queue) ==> !Oversized(sizes[a], l) && !Displaced(sizes, a, l))
    && (a in DeliveredArrivals(v.delivered) ==> !Oversized(sizes[a], l))
    && (a in v.flushed ==> !v.active && !Oversized(sizes[a], l) && !Displaced(sizes, a, l))
    && (a in v.dropped ==> Oversized(sizes[a], l) || Displaced(sizes, a, l))
  }

  /** Only events that were offered have a fate. */
  ghost predicate Known(v: QueueView) {
    forall a :: a in DeliveredArrivals(v.delivered) || a in v.dropped || a in v.flushed || a in Arrivals(v.queue) ==>
      a < v.offered
  }

  /** The queue holds everything, but oversized events, from its oldest event on. */
  ghost predicate HistoryOk(v: QueueView, sizes: seq<nat>, l: Limits) {
    && v.offered == |sizes| && Known(v)
    && v.queue == From(sizes, if v.queue == [] then |sizes| else v.queue[0].arrival, l)
    && forall a :: 0 <= a < |sizes| ==> FateOk(v, sizes, a, l)
  }

  predicate IsFrom(q: seq<Queued>, sizes: seq<nat>, a: nat, l: Limits) {
    && (forall i :: 0 <= i < |q| ==> a <= q[i].arrival < |sizes| && q[i].size == sizes[q[i].arrival])
    && (forall i, j :: 0 <= i < j < |q| ==> q[i].arrival < q[j].arrival)
    && (forall i :: 0 <= i < |q| ==> !Oversized(q[i].size, l))
  }

  lemma {:induction false} FromIsOrdered(sizes: seq<nat>, a: nat, l: Limits)
    ensures IsFrom(From(sizes, a, l), sizes, a, l)
  {
    if a < |sizes| { FromIsOrdered(sizes[..|sizes| - 1], a, l); }
  }

  /** A suffix of the events from `a` on are the events from its first one on. */
  lemma {:induction false} FromOfSuffix(sizes: seq<nat>, a: nat, j: nat, l: Limits)
    requires j < |From(sizes, a, l)|
    ensures From(sizes, From(sizes, a, l)[j].arrival, l) == From(sizes, a, l)[j..]
  {
    var q := From(sizes, a, l);
    var n := |sizes| - 1;
    var init := From(sizes[..n], a, l);
    FromIsOrdered(sizes, a, l);
    FromIsOrdered(sizes[..n], a, l);
    if j < |init| {
      FromOfSuffix(sizes[..n], a, j, l);
    } else {
      assert q[j].arrival == n && From(sizes[..n], n, l) == [];
    }
  }

  lemma DisplacedLater(sizes: seq<nat>, size: nat, a: nat, l: Limits)
    requires a < |sizes|
    ensures Displaced(sizes + [size], a, l) <==> Displaced(sizes, a, l) || Displaces(sizes + [size], a, |sizes|, l)
  {
    var more := sizes + [size];
    forall b | a < b < |sizes|
      ensures Displaces(more, a, b, l) == Displaces(sizes, a, b, l)
    {
      assert more[..b] == sizes[..b];
    }
  }

  /** Whether a queued event is dropped for one of `size` bytes. */
  lemma DropIsDisplacement(v: QueueView, sizes: seq<nat>, size: nat, l: Limits, j: nat)
    requires LimitsAccepted(l) && !Oversized(size, l) && HistoryOk(v, sizes, l) && j < |v.queue|
    ensures v.queue[j].arrival < |sizes|
    ensures Displaces(sizes + [size], v.queue[j].arrival, |sizes|, l) <==> j < DropCount(v.queue, size, l)
  {
    var k := DropCount(v.queue, size, l);
    var first := v.queue[0].arrival;
    FromIsOrdered(sizes, first, l);
    FromOfSuffix(sizes, first, j, l);
    assert (sizes + [size])[..|sizes|] == sizes;
    DropCountIsLeast(v.queue, size, l);
    if k <= j {
      BytesOfSplit(v.queue[k..], j - k);
      assert v.queue[k..][j - k..] == v.queue[j..];
    }
  }

  /** The state before the drain that an offer may start. */
  lemma PushKeepsHistory(v: QueueView, sizes: seq<nat>, size: nat, l: Limits)
    requires LimitsAccepted(l) && !Oversized(size, l) && v.active && HistoryOk(v, sizes, l)
    ensures HistoryOk(PushView(v, size, l), sizes + [size], l)
  {
    var w, more := PushView(v, size, l), sizes + [size];
    PushKeepsKnown(v, size, l);
    PushKeepsTail(v, sizes, size, l);
    forall a | 0 <= a < |more|
      ensures FateOk(w, more, a, l)
    {
      PushFate(v, sizes, size, l, a);
    }
  }

  lemma PushKeepsKnown(v: QueueView, size: nat, l: Limits)
    requires LimitsAccepted(l) && !Oversized(size, l) && Known(v)
    ensures Known(PushView(v, size, l))
  {
    var k := DropCount(v.queue, size, l);
    assert Arrivals(v.queue) == Arrivals(v.queue[..k]) + Arrivals(v.queue[k..]);
    assert Arrivals(PushView(v, size, l).queue) == Arrivals(v.queue[k..]) + [v.offered];
  }

  lemma PushKeepsTail(v: QueueView, sizes: seq<nat>, size: nat, l: Limits)
    requires LimitsAccepted(l) && !Oversized(size, l) && HistoryOk(v, sizes, l)
    ensures var w := PushView(v, size, l);
      w.queue != [] && w.queue == From(sizes + [size], w.queue[0].arrival, l)
  {
    var k, n := DropCount(v.queue, size, l), |sizes|;
    var first := if k < |v.queue| then v.queue[k].arrival else n;
    assert (sizes + [size])[..n] == sizes;
    if k < |v.queue| {
      FromOfSuffix(sizes, v.queue[0].arrival, k, l);
      FromIsOrdered(sizes, v.queue[0].arrival, l);
    } else {
      NothingFrom(sizes, l);
    }
    assert v.queue[k..] == From(sizes, first, l);
    assert From(sizes + [size], first, l) == From(sizes, first, l) + [Queued(n, size)];
  }

  lemma PushFate(v: QueueView, sizes: seq<nat>, size: nat, l: Limits, a: nat)
    requires LimitsAccepted(l) && !Oversized(size, l) && v.active && HistoryOk(v, sizes, l) && a <= |sizes|
    ensures FateOk(PushView(v, size, l), sizes + [size], a, l)
  {
    var w, more, n := PushView(v, size, l), sizes + [size], |sizes|;
    var k := DropCount(v.queue, size, l);
    if a < n {
      assert FateOk(v, sizes, a, l);
      DisplacedLater(sizes, size, a, l);
    }
    if a in Arrivals(w.queue) && a < n {
      var i :| 0 <= i < |w.queue| && w.queue[i].arrival == a;
      assert w.queue[i] == v.queue[k + i] && Arrivals(v.queue)[k + i] == a;
      DropIsDisplacement(v, sizes, size, l, k + i);
    }
    if a in Arrivals(v.queue[..k]) {
      var i :| 0 <= i < k && v.queue[i].arrival == a;
      DropIsDisplacement(v, sizes, size, l, i);
      assert Displaces(more, a, n, l);
    }
  }

  lemma DrainKeepsHistory(v: QueueView, sizes: seq<nat>, l: Limits)
    requires HistoryOk(v, sizes, l)
    ensures HistoryOk(DrainView(v), sizes, l)
  {
    var w := DrainView(v);
    if v.active && v.queue != [] {
      var first := v.queue[0].arrival;
      FromIsOrdered(sizes, first, l);
      assert DeliveredArrivals(w.delivered) == DeliveredArrivals(v.delivered) + [first];
      assert Arrivals(v.queue) == [first] + Arrivals(w.queue);
      if w.queue != [] {
        FromOfSuffix(sizes, first, 1, l);
      } else {
        NothingFrom(sizes, l);
      }
    }
    forall a | 0 <= a < |sizes|
      ensures FateOk(w, sizes, a, l)
    {
      assert FateOk(v, sizes, a, l);
    }
  }

  lemma NothingFrom(sizes: seq<nat>, l: Limits)
    ensures From(sizes, |sizes|, l) == []
  {
  }

  lemma OversizedKeepsHistory(v: QueueView, sizes: seq<nat>, size: nat, l: Limits)
    requires LimitsAccepted(l) && Oversized(size, l) && HistoryOk(v, sizes, l)
    ensures HistoryOk(OfferView(v, size, l), sizes + [size], l)
  {
    var w, more := OfferView(v, size, l), sizes + [size];
    assert more[..|sizes|] == sizes;
    NothingFrom(more, l);
    FromIsOrdered(sizes, if v.queue == [] then |sizes| else v.queue[0].arrival, l);
    forall a | 0 <= a < |more|
      ensures FateOk(w, more, a, l)
    {
      if a < |sizes| {
        assert FateOk(v, sizes, a, l);
        DisplacedLater(sizes, size, a, l);
      }
    }
  }

  lemma DeactivateKeepsHistory(v: QueueView, sizes: seq<nat>, l: Limits)
    requires HistoryOk(v, sizes, l)
    ensures HistoryOk(DeactivateView(v), sizes, l)
  {
    NothingFrom(sizes, l);
    FromIsOrdered(sizes, if v.queue == [] then |sizes| else v.queue[0].arrival, l);
    forall a | 0 <= a < |sizes|
      ensures FateOk(DeactivateView(v), sizes, a, l)
    {
      assert FateOk(v, sizes, a, l);
    }
  }

  lemma OfferKeepsHistory(v: QueueView, sizes: seq<nat>, size: nat, l: Limits)
    requires LimitsAccepted(l) && v.active && HistoryOk(v, sizes, l)
    ensures HistoryOk(OfferView(v, size, l), sizes + [size], l) && OfferView(v, size, l).active
  {
    if Oversized(size, l) {
      OversizedKeepsHistory(v, sizes, size, l);
    } else {
      PushKeepsHistory(v, sizes, size, l);
      DrainKeepsHistory(PushView(v, size, l), sizes + [size], l);
    }
  }

  lemma {:induction false} EveryRunHasItsHistory(actions: seq<Action>, l: Limits)
    requires LimitsAccepted(l)
    ensures HistoryOk(Run(actions, l), Sizes(actions), l)
    ensures Run(actions, l).active <==> Deactivate !in actions
  {
    if actions != [] {
      var before, last := actions[..|actions| - 1], actions[|actions| - 1];
      var v := Run(before, l);
      EveryRunHasItsHistory(before, l);
      assert actions == before + [last];
      hide HistoryOk, PushView;
      match last
      case Offer(size) =>
        if v.active {
          OfferKeepsHistory(v, Sizes(before), size, l);
        }
      case Resume => if v.draining { DrainKeepsHistory(v, Sizes(before), l); }
      case Deactivate => DeactivateKeepsHistory(v, Sizes(before), l);
    }
  }

  /** An event is dropped if and only if it is oversized, or it was not delivered before a
      later event came that did not fit behind it and all that was queued after it. */
  lemma DroppedIff(actions: seq<Action>, l: Limits, a: nat)
    requires LimitsAccepted(l) && a < |Sizes(actions)|
    ensures var v := Run(actions, l);
      a in v.dropped <==>
        Oversized(Sizes(actions)[a], l) ||
        (Displaced(Sizes(actions), a, l) && a !in DeliveredArrivals(v.delivered))
  {
    var v := Run(actions, l);
    EveryRunHasItsHistory(actions, l);
    EveryRunKeepsQueue(actions, l);
    assert FateOk(v, Sizes(actions), a, l);
    OneFate(v, a);
  }

  /** Every event has exactly one fate. */
  lemma OneFate(v: QueueView, a: nat)
    requires Conserved(v) && a < v.offered
    ensures a in DeliveredArrivals(v.delivered) || a in v.dropped || a in Arrivals(v.queue) || a in v.flushed
    ensures !(a in DeliveredArrivals(v.delivered) && a in v.dropped)
  {
    var first := FirstNumbers(v.offered);
    assert first[a] == a && first == first[..a] + [a] + first[a + 1..];
    assert multiset(first) == multiset(first[..a]) + multiset{a} + multiset(first[a + 1..]);
    assert multiset(first)[a] == 1;
    assert Fates(v)[a] == 1;
  }

  /** Only a consumer that was deactivated flushes, and an event is flushed only if it
      still had its place in the queue. */
  lemma FlushedOnlyAtTheEnd(actions: seq<Action>, l: Limits, a: nat)
    requires LimitsAccepted(l) && a in Run(actions, l).flushed
    ensures Deactivate in actions && a < |Sizes(actions)| && !Displaced(Sizes(actions), a, l)
  {
    EveryRunHasItsHistory(actions, l);
    assert FateOk(Run(actions, l), Sizes(actions), a, l);
  }

  /** An event that is not oversized is taken: it is the last in the queue, or the callback
      has it already. */
  lemma OfferIsTaken(actions: seq<Action>, size: nat, l: Limits)
    requires LimitsAccepted(l) && Deactivate !in actions && !Oversized(size, l)
    ensures var v, n := Run(actions + [Offer(size)], l), |Sizes(actions)|;
      || (v.queue != [] && v.queue[|v.queue| - 1] == Queued(n, size))
      || (v.delivered != [] && v.delivered[|v.delivered| - 1].arrival == n)
  {
    HistoryCounts(actions, l);
    RunStep(actions, Offer(size), l);
    hide OfferView, Sizes, Run;
    PushIsLast(Run(actions, l), size, l);
  }

  lemma RunStep(actions: seq<Action>, a: Action, l: Limits)
    requires LimitsAccepted(l)
    ensures Run(actions + [a], l) == Step(Run(actions, l), a, l)
  {
    assert (actions + [a])[..|actions|] == actions;
  }

  lemma HistoryCounts(actions: seq<Action>, l: Limits)
    requires LimitsAccepted(l)
    ensures Run(actions, l).offered == |Sizes(actions)| && (Run(actions, l).active <==> Deactivate !in actions)
  {
    EveryRunHasItsHistory(actions, l);
  }

  lemma PushIsLast(v: QueueView, size: nat, l: Limits)
    requires LimitsAccepted(l) && !Oversized(size, l) && v.active
    ensures var w := OfferView(v, size, l);
      || (w.queue != [] && w.queue[|w.queue| - 1] == Queued(v.offered, size))
      || (w.delivered != [] && w.delivered[|w.delivered| - 1].arrival == v.offered)
  {
    hide DropCount, Bytes, Arrivals;
  }

  /** When the callback returns, the next event is handed over, if there is one. */
  lemma ResumeDelivers(actions: seq<Action>, l: Limits)
    requires LimitsAccepted(l) && Run(actions, l).draining && Run(actions, l).queue != []
    ensures var v, w := Run(actions, l), Run(actions + [Resume], l);
      |w.delivered| == |v.delivered| + 1 && w.delivered[|v.delivered|].arrival == v.queue[0].arrival && w.draining
  {
    EveryRunKeepsQueue(actions, l);
    RunStep(actions, Resume, l);
  }
}
