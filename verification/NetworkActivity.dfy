/** Waiting until a tab's network is idle (chrome-extension/src/network-activity.js):
    a timed state machine of request events, timers and waiters. */
module NetworkActivity {
  import opened Text

  /** A `waitForIdle` call: `timer` is when its timer is due. */
  datatype Status = Waiting | Fulfilled(at: int) | Rejected

  datatype Waiter = Waiter(tab: int, idleMs: nat, startedAt: int, timer: Option<int>, status: Status)

  datatype Details = Details(tab: int, request: string, webSocket: bool)

  datatype State = State(
    active: map<int, set<string>>,
    last: map<int, int>,
    subscribers: map<int, set<nat>>,
    waiters: seq<Waiter>)

  const NEW_STATE := State(map[], map[], map[], [])

  // ---------------------------------------------------------------------
  // Specification
  // ---------------------------------------------------------------------

  predicate Tracked(d: Details) {
    0 <= d.tab && !d.webSocket
  }

  function SetAt<K, V>(m: map<K, set<V>>, k: K): set<V> {
    if k in m then m[k] else {}
  }

  /** A table of sets never keeps an empty one. */
  function Filed<K, V>(m: map<K, set<V>>, k: K, s: set<V>): map<K, set<V>> {
    if s == {} then m - {k} else m[k := s]
  }

  function Max(a: int, b: int): int {
    if a < b then b else a
  }

  /** The time the idle period is counted from; a recorded time of 0 is taken for none. */
  function QuietSince(s: State, w: Waiter): int {
    var last := if w.tab in s.last && s.last[w.tab] != 0 then s.last[w.tab] else w.startedAt;
    Max(last, w.startedAt)
  }

  /** `evaluate`: the timer is set anew, unless requests are active. */
  function Evaluated(s: State, w: Waiter, now: int): Waiter {
    w.(timer :=
      if SetAt(s.active, w.tab) != {} then None
      else Some(now + Max(0, w.idleMs - (now - QuietSince(s, w)))))
  }

  /** The subscribers of the tabs in `tabs` evaluate. */
  function Notified(s: State, tabs: set<int>, now: int): State {
    s.(waiters := seq(|s.waiters|, i requires 0 <= i < |s.waiters| =>
      var w := s.waiters[i];
      if w.tab in tabs && i in SetAt(s.subscribers, w.tab) then Evaluated(s, w, now) else w))
  }

  function Recorded(s: State, tab: int, now: int): State {
    Notified(s.(last := s.last[tab := now]), {tab}, now)
  }

  function RequestStarted(s: State, d: Details, now: int): State {
    if !Tracked(d) then s
    else Recorded(s.(active := Filed(s.active, d.tab, SetAt(s.active, d.tab) + {d.request})), d.tab, now)
  }

  function RequestFinished(s: State, d: Details, now: int): State {
    if !Tracked(d) then s
    else Recorded(s.(active := Filed(s.active, d.tab, SetAt(s.active, d.tab) - {d.request})), d.tab, now)
  }

  /** A new waiter subscribes and evaluates. */
  function Waited(s: State, tab: int, idleMs: nat, now: int): State {
    var n := |s.waiters|;
    var w := Waiter(tab, idleMs, now, None, Waiting);
    s.(waiters := s.waiters + [Evaluated(s, w, now)],
       subscribers := s.subscribers[tab := SetAt(s.subscribers, tab) + {n}])
  }

  /** `finish`: the first one counts. */
  function Settled(s: State, i: nat, status: Status): State
    requires i < |s.waiters|
  {
    var w := s.waiters[i];
    if w.status != Waiting then s
    else s.(waiters := s.waiters[i := w.(timer := None, status := status)],
            subscribers := Filed(s.subscribers, w.tab, SetAt(s.subscribers, w.tab) - {i}))
  }

  function Forgotten(s: State, now: int): State {
    Notified(s.(active := map[], last := map[]), s.active.Keys + s.subscribers.Keys, now)
  }

  predicate AreOf(waiters: seq<Waiter>, ids: set<nat>, tab: int) {
    forall i :: i in ids ==> i < |waiters| && waiters[i].tab == tab
  }

  // ---------------------------------------------------------------------
  // The observer
  // ---------------------------------------------------------------------

  class Observer {
    const available: bool
    var activeByTab: map<int, set<string>>
    var lastActivityByTab: map<int, int>
    var subscribersByTab: map<int, set<nat>>
    var waiters: seq<Waiter>       // the variables of each call's closures

    function View(): State
      reads this
    {
      State(activeByTab, lastActivityByTab, subscribersByTab, waiters)
    }

    /** Subscribers are waiters of their tab. */
    ghost predicate Valid()
      reads this
    {
      forall t :: t in subscribersByTab ==> AreOf(waiters, subscribersByTab[t], t)
    }

    constructor (available: bool)
      ensures Valid() && View() == NEW_STATE && this.available == available
    {
      this.available := available;
      activeByTab, lastActivityByTab, subscribersByTab, waiters := map[], map[], map[], [];
    }

    method Evaluate(i: nat, now: int)
      requires i < |waiters|
      modifies this`waiters
      ensures waiters == old(waiters)[i := Evaluated(old(View()), old(waiters)[i], now)]
    {
      var w := waiters[i];
      waiters := waiters[i := w.(timer := None)];
      if w.tab in activeByTab && activeByTab[w.tab] != {} { return; }
      var last := w.startedAt;
      if w.tab in lastActivityByTab && lastActivityByTab[w.tab] != 0 { last := lastActivityByTab[w.tab]; }
      var quiet := Max(last, w.startedAt);
      var remaining := Max(0, w.idleMs - (now - quiet));
      waiters := waiters[i := w.(timer := Some(now + remaining))];
    }

    /** Every subscriber of the tab evaluates. */
    method Notify(tab: int, now: int)
      requires Valid()
      modifies this`waiters
      ensures Valid() && View() == Notified(old(View()), {tab}, now)
    {
      var todo := if tab in subscribersByTab then subscribersByTab[tab] else {};
      ghost var s := View();
      while todo != {}
        invariant todo <= SetAt(subscribersByTab, tab) && |waiters| == |s.waiters| && Valid()
        invariant forall i :: 0 <= i < |waiters| ==>
          waiters[i] ==
            if i in SetAt(subscribersByTab, tab) && i !in todo then Evaluated(s, s.waiters[i], now) else s.waiters[i]
        decreases todo
      {
        var i :| i in todo;
        todo := todo - {i};
        Evaluate(i, now);
      }
      assert waiters == Notified(s, {tab}, now).waiters;
    }

    method RecordActivity(tab: int, now: int)
      requires Valid()
      modifies this
      ensures Valid() && View() == Recorded(old(View()), tab, now)
    {
      lastActivityByTab := lastActivityByTab[tab := now];
      Notify(tab, now);
    }

    method OnStarted(d: Details, now: int)
      requires Valid()
      modifies this
      ensures Valid() && View() == RequestStarted(old(View()), d, now)
    {
      if !Tracked(d) { return; }
      var requests := if d.tab in activeByTab then activeByTab[d.tab] else {};
      activeByTab := activeByTab[d.tab := requests + {d.request}];
      RecordActivity(d.tab, now);
    }

    method OnFinished(d: Details, now: int)
      requires Valid()
      modifies this
      ensures Valid() && View() == RequestFinished(old(View()), d, now)
    {
      if !Tracked(d) { return; }
      if d.tab in activeByTab {
        activeByTab := activeByTab[d.tab := activeByTab[d.tab] - {d.request}];
        if activeByTab[d.tab] == {} { activeByTab := activeByTab - {d.tab}; }
      }
      RecordActivity(d.tab, now);
    }

    /** Refused without observation, or if the caller has already given up. */
    method WaitForIdle(tab: int, idleMs: nat, aborted: bool, now: int) returns (waiter: Option<nat>)
      requires Valid()
      modifies this
      ensures Valid() && waiter == if available && !aborted then Some(|old(waiters)|) else None
      ensures View() == if waiter.Some? then Waited(old(View()), tab, idleMs, now) else old(View())
    {
      if !available || aborted { return None; }
      var n := |waiters|;
      waiters := waiters + [Waiter(tab, idleMs, now, None, Waiting)];
      var subscribers := if tab in subscribersByTab then subscribersByTab[tab] else {};
      subscribersByTab := subscribersByTab[tab := subscribers + {n}];
      Evaluate(n, now);
      waiter := Some(n);
    }

    method Finish(i: nat, status: Status)
      requires Valid() && i < |waiters|
      modifies this
      ensures Valid() && View() == Settled(old(View()), i, status)
    {
      var w := waiters[i];
      if w.status != Waiting { return; }
      waiters := waiters[i := w.(timer := None, status := status)];
      if w.tab in subscribersByTab {
        subscribersByTab := subscribersByTab[w.tab := subscribersByTab[w.tab] - {i}];
        if subscribersByTab[w.tab] == {} { subscribersByTab := subscribersByTab - {w.tab}; }
      }
    }

    method Reset(now: int)
      requires Valid()
      modifies this
      ensures Valid() && View() == Forgotten(old(View()), now)
    {
      var tabs: set<int> := activeByTab.Keys + subscribersByTab.Keys;
      activeByTab, lastActivityByTab := map[], map[];
      ghost var s := View();
      var todo: set<int> := tabs;
      NoneNotified(s, now);
      assert tabs - todo == {};
      while todo != {}
        invariant todo <= tabs && Valid() && View() == Notified(s, tabs - todo, now)
        decreases todo
      {
        assert (forall t: int :: t !in todo) ==> todo == {};
        var tab :| tab in todo;
        todo := todo - {tab};
        Notify(tab, now);
        NotifiedTwice(s, tabs - todo - {tab}, tab, now);
        assert tabs - todo - {tab} + {tab} == tabs - todo;
      }
      assert tabs - {} == tabs;
    }
  }

  lemma NoneNotified(s: State, now: int)
    ensures Notified(s, {}, now) == s
  {
    assert Notified(s, {}, now).waiters == s.waiters;
  }

  lemma NotifiedTwice(s: State, tabs: set<int>, tab: int, now: int)
    requires tab !in tabs
    ensures Notified(Notified(s, tabs, now), {tab}, now) == Notified(s, tabs + {tab}, now)
  {
  }

  // ---------------------------------------------------------------------
  // Every run
  // ---------------------------------------------------------------------

  datatype Event = Event(details: Details, begins: bool, at: int)

  /** `events` are the tracked events so far, `since` how many there were at the last
      reset. */
  datatype World = World(state: State, clock: int, events: seq<Event>, since: nat)

  datatype Action =
    | Tick(to: int)
    | Begin(details: Details)
    | End(details: Details)
    | Wait(tab: int, idleMs: nat)
    | Fire(i: nat)
    | Abort(i: nat)
    | Reset

  function NewWorld(clock: nat): World {
    World(NEW_STATE, clock, [], 0)
  }

  /** A timer fires when it is due or later. */
  predicate Due(w: World, i: nat) {
    && i < |w.state.waiters| && w.state.waiters[i].status == Waiting
    && w.state.waiters[i].timer.Some? && w.state.waiters[i].timer.value <= w.clock
  }

  function Logged(w: World, d: Details, begins: bool): seq<Event> {
    if Tracked(d) then w.events + [Event(d, begins, w.clock)] else w.events
  }

  function Step(w: World, a: Action): World {
    match a
    case Tick(to) => if w.clock <= to then w.(clock := to) else w
    case Begin(d) => w.(state := RequestStarted(w.state, d, w.clock), events := Logged(w, d, true))
    case End(d) => w.(state := RequestFinished(w.state, d, w.clock), events := Logged(w, d, false))
    case Wait(tab, idleMs) => w.(state := Waited(w.state, tab, idleMs, w.clock))
    case Fire(i) => if Due(w, i) then w.(state := Settled(w.state, i, Fulfilled(w.clock))) else w
    case Abort(i) => if i < |w.state.waiters| then w.(state := Settled(w.state, i, Rejected)) else w
    case Reset => w.(state := Forgotten(w.state, w.clock), since := |w.events|)
  }

  function Run(clock: nat, actions: seq<Action>): World {
    if actions == [] then NewWorld(clock) else Step(Run(clock, actions[..|actions| - 1]), actions[|actions| - 1])
  }

  /** Requests of a tab that have begun and not ended. */
  function Open(events: seq<Event>, tab: int): set<string> {
    if events == [] then {}
    else
      var open := Open(events[..|events| - 1], tab);
      var e := events[|events| - 1];
      if e.details.tab != tab then open
      else if e.begins then open + {e.details.request}
      else open - {e.details.request}
  }

  /** No event of the tab after the first `since` is later than `t`. */
  predicate QuietAfter(events: seq<Event>, since: nat, tab: int, t: int) {
    forall k :: since <= k < |events| && events[k].details.tab == tab ==> events[k].at <= t
  }

  /** The subscriber table holds exactly the unsettled waiters, and no empty set. */
  ghost predicate SubscribersOk(s: State) {
    && (forall t :: t in s.subscribers ==> s.subscribers[t] != {} && AreOf(s.waiters, s.subscribers[t], t))
    && (forall i :: 0 <= i < |s.waiters| ==>
          (s.waiters[i].status == Waiting <==> i in SetAt(s.subscribers, s.waiters[i].tab)))
  }

  /** A waiter whose tab has no active request has a timer, due no earlier than one idle
      period after its start and after the last event. */
  ghost predicate WaiterOk(w: World, x: Waiter) {
    0 <= x.startedAt <= w.clock &&
    (x.status == Waiting ==>
      if SetAt(w.state.active, x.tab) != {} then x.timer.None?
      else x.timer.Some? && x.startedAt + x.idleMs <= x.timer.value &&
           QuietAfter(w.events, w.since, x.tab, x.timer.value - x.idleMs))
  }

  ghost predicate TabOk(w: World, tab: int)
    requires w.since <= |w.events|
  {
    && SetAt(w.state.active, tab) == Open(w.events[w.since..], tab)
    && QuietAfter(w.events, w.since, tab, if tab in w.state.last then w.state.last[tab] else -1)
    && (tab in w.state.last ==> 0 <= w.state.last[tab] <= w.clock)
  }

  ghost predicate Inv(w: World) {
    && 0 <= w.clock && w.since <= |w.events| && SubscribersOk(w.state)
    && (forall tab: int :: TabOk(w, tab))
    && (forall i :: 0 <= i < |w.state.waiters| ==> WaiterOk(w, w.state.waiters[i]))
  }

  /** A waiter that has just evaluated, after an event of its tab or a reset. */
  lemma EvaluatedIsOk(w: World, x: Waiter)
    requires 0 <= w.clock && w.since <= |w.events| && TabOk(w, x.tab) && 0 <= x.startedAt <= w.clock
    requires x.startedAt == w.clock || x.tab !in w.state.last || w.state.last[x.tab] == w.clock
    ensures WaiterOk(w, Evaluated(w.state, x, w.clock))
  {
  }

  lemma OpenStep(w: World, e: Event, tab: int)
    requires w.since <= |w.events|
    ensures Open((w.events + [e])[w.since..], tab) ==
      (var open := Open(w.events[w.since..], tab);
       if e.details.tab != tab then open
       else if e.begins then open + {e.details.request} else open - {e.details.request})
  {
    assert (w.events + [e])[w.since..] == w.events[w.since..] + [e];
  }

  /** The world after an event that was tracked, before the subscribers hear of it. */
  function Counted(w: World, d: Details, begins: bool): World {
    var open := SetAt(w.state.active, d.tab);
    var requests := if begins then open + {d.request} else open - {d.request};
    w.(state := w.state.(active := Filed(w.state.active, d.tab, requests), last := w.state.last[d.tab := w.clock]),
       events := w.events + [Event(d, begins, w.clock)])
  }

  lemma CountedTabs(w: World, d: Details, begins: bool, tab: int)
    requires Inv(w)
    ensures TabOk(Counted(w, d, begins), tab)
  {
    assert TabOk(w, tab);
    OpenStep(w, Event(d, begins, w.clock), tab);
  }

  /** Waiters of other tabs do not notice an event. */
  lemma CountedOthers(w: World, d: Details, begins: bool, x: Waiter)
    requires WaiterOk(w, x) && (x.tab != d.tab || x.status != Waiting)
    ensures WaiterOk(Counted(w, d, begins), x)
  {
  }

  lemma EventKeepsInv(w: World, d: Details, begins: bool)
    requires Inv(w) && Tracked(d)
    ensures Inv(Counted(w, d, begins).(state := Notified(Counted(w, d, begins).state, {d.tab}, w.clock)))
  {
    var y := Counted(w, d, begins);
    var x := y.(state := Notified(y.state, {d.tab}, w.clock));
    forall tab: int
      ensures TabOk(x, tab)
    {
      CountedTabs(w, d, begins, tab);
      assert TabOk(y, tab);
    }
    forall i | 0 <= i < |x.state.waiters|
      ensures WaiterOk(x, x.state.waiters[i])
    {
      var before := w.state.waiters[i];
      assert WaiterOk(w, before);
      if before.tab == d.tab && before.status == Waiting {
        assert TabOk(y, before.tab) by { CountedTabs(w, d, begins, before.tab); }
        EvaluatedIsOk(y, before);
        assert WaiterOk(y, Evaluated(y.state, before, w.clock));
      } else {
        CountedOthers(w, d, begins, before);
        assert WaiterOk(y, before);
      }
    }
    NotifiedSubscribers(y.state, {d.tab}, w.clock);
  }

  lemma NotifiedSubscribers(s: State, tabs: set<int>, now: int)
    requires SubscribersOk(s)
    ensures SubscribersOk(Notified(s, tabs, now))
  {
  }

  lemma WaitKeepsInv(w: World, tab: int, idleMs: nat)
    requires Inv(w)
    ensures Inv(w.(state := Waited(w.state, tab, idleMs, w.clock)))
  {
    var x := w.(state := Waited(w.state, tab, idleMs, w.clock));
    var n := |w.state.waiters|;
    forall t: int
      ensures TabOk(x, t)
    {
      assert TabOk(w, t);
    }
    EvaluatedIsOk(w, Waiter(tab, idleMs, w.clock, None, Waiting));
    forall i | 0 <= i < |x.state.waiters|
      ensures WaiterOk(x, x.state.waiters[i])
    {
      if i < n { assert WaiterOk(w, w.state.waiters[i]); }
    }
  }

  lemma SettleKeepsInv(w: World, i: nat, status: Status)
    requires Inv(w) && i < |w.state.waiters| && status != Waiting
    ensures Inv(w.(state := Settled(w.state, i, status)))
  {
    var x := w.(state := Settled(w.state, i, status));
    forall t: int
      ensures TabOk(x, t)
    {
      assert TabOk(w, t);
    }
    forall j | 0 <= j < |x.state.waiters|
      ensures WaiterOk(x, x.state.waiters[j])
    {
      assert WaiterOk(w, w.state.waiters[j]);
    }
  }

  lemma ResetKeepsInv(w: World)
    requires Inv(w)
    ensures Inv(w.(state := Forgotten(w.state, w.clock), since := |w.events|))
  {
    var y := w.(state := w.state.(active := map[], last := map[]), since := |w.events|);
    var x := w.(state := Forgotten(w.state, w.clock), since := |w.events|);
    assert w.events[|w.events|..] == [];
    forall i | 0 <= i < |x.state.waiters|
      ensures WaiterOk(x, x.state.waiters[i])
    {
      var before := w.state.waiters[i];
      assert WaiterOk(w, before);
      EvaluatedIsOk(y, before);
    }
    NotifiedSubscribers(y.state, w.state.active.Keys + w.state.subscribers.Keys, w.clock);
  }

  lemma StepKeepsInv(w: World, a: Action)
    requires Inv(w)
    ensures Inv(Step(w, a))
  {
    match a
    case Tick(to) =>
      forall tab: int
        ensures TabOk(Step(w, a), tab)
      {
        assert TabOk(w, tab);
      }
    case Begin(d) => if Tracked(d) { EventKeepsInv(w, d, true); }
    case End(d) => if Tracked(d) { EventKeepsInv(w, d, false); }
    case Wait(tab, idleMs) => WaitKeepsInv(w, tab, idleMs);
    case Fire(i) => if Due(w, i) { SettleKeepsInv(w, i, Fulfilled(w.clock)); }
    case Abort(i) => if i < |w.state.waiters| { SettleKeepsInv(w, i, Rejected); }
    case Reset => ResetKeepsInv(w);
  }

  lemma {:induction false} EveryRunKeepsInv(clock: nat, actions: seq<Action>)
    ensures Inv(Run(clock, actions))
  {
    if actions != [] {
      EveryRunKeepsInv(clock, actions[..|actions| - 1]);
      StepKeepsInv(Run(clock, actions[..|actions| - 1]), actions[|actions| - 1]);
    }
  }

  // ---------------------------------------------------------------------
  // What a waiter is promised
  // ---------------------------------------------------------------------

  /** A waiter that fulfils now has been quiet, as far as the observer remembers: since the
      last reset nothing happened to its tab for an idle period, every request that began
      has ended, and the period is not older than the call. */
  lemma IdleIsIdle(clock: nat, actions: seq<Action>, i: nat)
    requires Due(Run(clock, actions), i)
    ensures var w := Run(clock, actions);
      var x := w.state.waiters[i];
      && w.since <= |w.events|
      && x.startedAt + x.idleMs <= w.clock
      && QuietAfter(w.events, w.since, x.tab, w.clock - x.idleMs)
      && Open(w.events[w.since..], x.tab) == {}
  {
    var w := Run(clock, actions);
    EveryRunKeepsInv(clock, actions);
    assert WaiterOk(w, w.state.waiters[i]) && TabOk(w, w.state.waiters[i].tab);
  }

  /** Without resets, nothing is forgotten. */
  lemma {:induction false} NothingForgotten(clock: nat, actions: seq<Action>)
    requires forall a :: a in actions ==> !a.Reset?
    ensures Run(clock, actions).since == 0
  {
    if actions != [] {
      var init, last := actions[..|actions| - 1], actions[|actions| - 1];
      forall a | a in init
        ensures !a.Reset?
      {
        assert a in actions;
      }
      assert last in actions;
      NothingForgotten(clock, init);
    }
  }

  /** Soundness in runs without `reset`: no event of the tab at all in the idle period. */
  lemma IdleIsIdleWithoutReset(clock: nat, actions: seq<Action>, i: nat)
    requires Due(Run(clock, actions), i) && forall a :: a in actions ==> !a.Reset?
    ensures var w := Run(clock, actions);
      var x := w.state.waiters[i];
      && x.startedAt + x.idleMs <= w.clock
      && (forall e :: e in w.events && e.details.tab == x.tab ==> e.at <= w.clock - x.idleMs)
      && Open(w.events, x.tab) == {}
  {
    var w := Run(clock, actions);
    IdleIsIdle(clock, actions, i);
    NothingForgotten(clock, actions);
    assert w.events[0..] == w.events;
  }

  /** A tab that is quiet keeps every waiter's timer running: idleness is not missed. */
  lemma QuietTabsHaveTimers(clock: nat, actions: seq<Action>, i: nat)
    requires i < |Run(clock, actions).state.waiters| && Run(clock, actions).state.waiters[i].status == Waiting
    ensures var w := Run(clock, actions);
      w.since <= |w.events| &&
      (w.state.waiters[i].timer.Some? <==> Open(w.events[w.since..], w.state.waiters[i].tab) == {})
  {
    var w := Run(clock, actions);
    EveryRunKeepsInv(clock, actions);
    assert WaiterOk(w, w.state.waiters[i]) && TabOk(w, w.state.waiters[i].tab);
  }

  /** An event of a request that counts: of a tab, and not of a WebSocket. */
  predicate Counts(a: Action) {
    (a.Begin? || a.End?) && 0 <= a.details.tab && !a.details.webSocket
  }

  /** The events remembered are those of requests that count, with their times; any other
      event changes nothing at all. */
  lemma EventsAreTheHistory(clock: nat, actions: seq<Action>, a: Action)
    ensures var w, v := Run(clock, actions), Run(clock, actions + [a]);
      && v.events == (if Counts(a) then w.events + [Event(a.details, a.Begin?, w.clock)] else w.events)
      && v.clock == (if a.Tick? then Max(w.clock, a.to) else w.clock)
      && v.since == (if a.Reset? then |w.events| else w.since)
      && ((a.Begin? || a.End?) && !Counts(a) ==> v == w)
  {
    RunStep(clock, actions, a);
    hide Notified, Waited, Filed;
  }

  /** What an action makes of a waiter that was there before it. */
  ghost predicate Follows(w: World, a: Action, j: nat, x: Waiter, y: Waiter) {
    && y.tab == x.tab && y.idleMs == x.idleMs && y.startedAt == x.startedAt
    && y.status ==
       if x.status == Waiting && a == Fire(j) && x.timer.Some? && x.timer.value <= w.clock then Fulfilled(w.clock)
       else if x.status == Waiting && a == Abort(j) then Rejected
       else x.status
  }

  /** Over any run: each call adds one waiter, with its tab and period, from now; a waiter
      fulfils when its timer fires, rejects when it is aborted, and nothing else settles it. */
  lemma WaitersFollowTheCalls(clock: nat, actions: seq<Action>, a: Action)
    ensures var w, v := Run(clock, actions), Run(clock, actions + [a]);
      && |v.state.waiters| == |w.state.waiters| + (if a.Wait? then 1 else 0)
      && (forall j :: 0 <= j < |w.state.waiters| ==> Follows(w, a, j, w.state.waiters[j], v.state.waiters[j]))
      && (a.Wait? ==>
            var y := v.state.waiters[|w.state.waiters|];
            y.tab == a.tab && y.idleMs == a.idleMs && y.startedAt == w.clock && y.status == Waiting)
  {
    RunStep(clock, actions, a);
    hide Filed, QuietSince;
  }

  /** The time of the tab's last event, or 0. */
  function LastEvent(events: seq<Event>, tab: int): int {
    if events == [] then 0
    else if events[|events| - 1].details.tab == tab then events[|events| - 1].at
    else LastEvent(events[..|events| - 1], tab)
  }

  /** The time of the last reset, or 0. */
  function LastReset(clock: nat, actions: seq<Action>): int {
    if actions == [] then 0
    else
      var init := actions[..|actions| - 1];
      if actions[|actions| - 1].Reset? then Run(clock, init).clock else LastReset(clock, init)
  }

  /** A timer is due one idle period after the call and after the last event of the tab
      that is remembered, and not before the last reset. */
  ghost predicate TimerExact(w: World, x: Waiter, reset: int)
    requires w.since <= |w.events|
  {
    x.status == Waiting && x.timer.Some? ==>
      x.timer.value == Max(Max(x.startedAt, LastEvent(w.events[w.since..], x.tab)) + x.idleMs, reset)
  }

  lemma {:induction false} LastEventIsQuiet(events: seq<Event>, tab: int, t: int)
    requires 0 <= t && forall k :: 0 <= k < |events| && events[k].details.tab == tab ==> events[k].at <= t
    ensures LastEvent(events, tab) <= t
  {
    if events != [] && events[|events| - 1].details.tab != tab { LastEventIsQuiet(events[..|events| - 1], tab, t); }
  }

  lemma EventKeepsTimers(w: World, d: Details, begins: bool, x: Waiter, reset: int)
    requires w.since <= |w.events| && TimerExact(w, x, reset) && WaiterOk(w, x) && reset <= w.clock
    ensures var y := Counted(w, d, begins);
      TimerExact(y, if x.tab == d.tab && x.status == Waiting then Evaluated(y.state, x, w.clock) else x, reset)
  {
    var e := Event(d, begins, w.clock);
    assert (w.events + [e])[w.since..] == w.events[w.since..] + [e];
    assert (w.events[w.since..] + [e])[..|w.events| - w.since] == w.events[w.since..];
    hide Filed;
  }

  lemma WaitStartsTimer(w: World, tab: int, idleMs: nat, reset: int)
    requires 0 <= w.clock && w.since <= |w.events| && TabOk(w, tab) && 0 <= reset <= w.clock
    ensures TimerExact(w, Evaluated(w.state, Waiter(tab, idleMs, w.clock, None, Waiting), w.clock), reset)
  {
    var last := if tab in w.state.last then w.state.last[tab] else -1;
    assert QuietAfter(w.events, w.since, tab, w.clock);
    assert forall k :: 0 <= k < |w.events| - w.since ==> w.events[w.since..][k] == w.events[w.since + k];
    LastEventIsQuiet(w.events[w.since..], tab, w.clock);
    hide Open, QuietAfter;
  }

  lemma ResetRestartsTimer(w: World, x: Waiter)
    requires 0 <= x.startedAt <= w.clock && w.since == |w.events| && w.state.active == map[] && w.state.last == map[]
    ensures TimerExact(w, Evaluated(w.state, x, w.clock), w.clock)
  {
    assert w.events[w.since..] == [];
  }

  lemma StepKeepsTimers(w: World, a: Action, reset: int, i: nat)
    requires Inv(w) && 0 <= reset <= w.clock && i < |Step(w, a).state.waiters|
    requires i < |w.state.waiters| ==> TimerExact(w, w.state.waiters[i], reset)
    ensures Step(w, a).since <= |Step(w, a).events|
    ensures TimerExact(Step(w, a), Step(w, a).state.waiters[i], if a.Reset? then w.clock else reset)
  {
    if i < |w.state.waiters| { assert WaiterOk(w, w.state.waiters[i]); }
    match a
    case Begin(d) => if Tracked(d) { EventKeepsTimers(w, d, true, w.state.waiters[i], reset); }
    case End(d) => if Tracked(d) { EventKeepsTimers(w, d, false, w.state.waiters[i], reset); }
    case Wait(tab, idleMs) =>
      assert TabOk(w, tab);
      WaitStartsTimer(w, tab, idleMs, reset);
    case Reset =>
      var y := w.(state := w.state.(active := map[], last := map[]), since := |w.events|);
      ResetRestartsTimer(y, w.state.waiters[i]);
    case _ =>
  }

  lemma {:induction false} LastResetIsPast(clock: nat, actions: seq<Action>)
    ensures 0 <= LastReset(clock, actions) <= Run(clock, actions).clock
  {
    if actions != [] {
      var init := actions[..|actions| - 1];
      LastResetIsPast(clock, init);
      hide RequestStarted, RequestFinished, Forgotten, Waited, Settled;
    }
  }

  /** Over any run, idleness is noticed as soon as it is there: the timer of a waiting
      waiter is due exactly one idle period after its call and the last event of its tab
      that is remembered, or at the last reset if that is later. */
  lemma {:induction false} TimersAreExact(clock: nat, actions: seq<Action>, i: nat)
    requires i < |Run(clock, actions).state.waiters|
    ensures var w := Run(clock, actions);
      w.since <= |w.events| && TimerExact(w, w.state.waiters[i], LastReset(clock, actions))
  {
    if actions != [] {
      var init, a := actions[..|actions| - 1], actions[|actions| - 1];
      hide Step, TimerExact, Inv;
      EveryRunKeepsInv(clock, init);
      LastResetIsPast(clock, init);
      if i < |Run(clock, init).state.waiters| { TimersAreExact(clock, init, i); }
      StepKeepsTimers(Run(clock, init), a, LastReset(clock, init), i);
    }
  }

  /** A waiter is in the subscriber table exactly as long as it is not settled. */
  lemma SubscribersAreTheUnsettled(clock: nat, actions: seq<Action>, i: nat, tab: int)
    ensures var s := Run(clock, actions).state;
      i in SetAt(s.subscribers, tab) <==> i < |s.waiters| && s.waiters[i].tab == tab && s.waiters[i].status == Waiting
  {
    EveryRunKeepsInv(clock, actions);
  }

  lemma StepKeepsSettled(w: World, a: Action, i: nat)
    requires Inv(w) && i < |w.state.waiters| && w.state.waiters[i].status != Waiting
    ensures i < |Step(w, a).state.waiters| && Step(w, a).state.waiters[i] == w.state.waiters[i]
  {
  }

  /** A waiter settles once: its outcome never changes. */
  lemma {:induction false} SettledOnce(clock: nat, actions: seq<Action>, n: nat, i: nat)
    requires n <= |actions| && i < |Run(clock, actions[..n]).state.waiters|
    requires Run(clock, actions[..n]).state.waiters[i].status != Waiting
    ensures i < |Run(clock, actions).state.waiters|
    ensures Run(clock, actions).state.waiters[i] == Run(clock, actions[..n]).state.waiters[i]
  {
    if n == |actions| {
      assert actions[..n] == actions;
    } else {
      var before := actions[..|actions| - 1];
      assert before[..n] == actions[..n];
      SettledOnce(clock, before, n, i);
      EveryRunKeepsInv(clock, before);
      StepKeepsSettled(Run(clock, before), actions[|actions| - 1], i);
    }
  }

  // ---------------------------------------------------------------------
  // What a reset forgets
  // ---------------------------------------------------------------------

  /** The promise of `waitForIdle` for a waiter that fulfils now, over everything that ever
      happened to its tab. */
  ghost predicate Idle(w: World, i: nat)
    requires i < |w.state.waiters|
  {
    var x := w.state.waiters[i];
    && x.startedAt + x.idleMs <= w.clock
    && QuietAfter(w.events, 0, x.tab, w.clock - x.idleMs)
    && Open(w.events, x.tab) == {}
  }

  ghost predicate Mentioned(events: seq<Event>, tab: int, request: string) {
    exists k :: 0 <= k < |events| && events[k].details.tab == tab && events[k].details.request == request
  }

  /** A request is open if its last event says so, and only that event counts. */
  lemma {:induction false} OpenJoin(a: seq<Event>, b: seq<Event>, tab: int, request: string)
    ensures request in Open(a + b, tab) <==>
      request in Open(b, tab) || (request in Open(a, tab) && !Mentioned(b, tab, request))
  {
    if b == [] {
      assert a + b == a;
    } else {
      var init, e := b[..|b| - 1], b[|b| - 1];
      assert (a + b)[..|a + b| - 1] == a + init && (a + b)[|a + b| - 1] == e;
      OpenJoin(a, init, tab, request);
      assert Mentioned(b, tab, request) <==>
        Mentioned(init, tab, request) || (e.details.tab == tab && e.details.request == request)
      by {
        assert forall k :: 0 <= k < |init| ==> init[k] == b[k];
      }
    }
  }

  lemma OpenSince(w: World, tab: int, request: string)
    requires w.since <= |w.events|
    ensures request in Open(w.events, tab) <==>
      || request in Open(w.events[w.since..], tab)
      || (request in Open(w.events[..w.since], tab) && !Mentioned(w.events[w.since..], tab, request))
  {
    assert w.events[..w.since] + w.events[w.since..] == w.events;
    OpenJoin(w.events[..w.since], w.events[w.since..], tab, request);
  }

  lemma QuietSplits(w: World, tab: int, t: int)
    requires w.since <= |w.events|
    ensures QuietAfter(w.events, 0, tab, t) <==>
      QuietAfter(w.events[..w.since], 0, tab, t) && QuietAfter(w.events, w.since, tab, t)
  {
    assert forall k :: 0 <= k < w.since ==> w.events[..w.since][k] == w.events[k];
  }

  /** In any run, a waiter that fulfils keeps the promise if and only if what the last
      reset forgot does not matter: it is older than the idle period, and every request
      that was open then has been heard of since. */
  lemma IdleIffForgottenIsOver(clock: nat, actions: seq<Action>, i: nat)
    requires Due(Run(clock, actions), i)
    ensures var w := Run(clock, actions);
      var x := w.state.waiters[i];
      w.since <= |w.events| &&
      (Idle(w, i) <==>
         && QuietAfter(w.events[..w.since], 0, x.tab, w.clock - x.idleMs)
         && forall r :: r in Open(w.events[..w.since], x.tab) ==> Mentioned(w.events[w.since..], x.tab, r))
  {
    var w := Run(clock, actions);
    var x := w.state.waiters[i];
    IdleIsIdle(clock, actions, i);
    QuietSplits(w, x.tab, w.clock - x.idleMs);
    forall r: string
      ensures r in Open(w.events, x.tab) <==>
        r in Open(w.events[..w.since], x.tab) && !Mentioned(w.events[w.since..], x.tab, r)
    {
      OpenSince(w, x.tab, r);
    }
    assert Open(w.events, x.tab) == {} <==> forall r: string :: r !in Open(w.events, x.tab);
  }

  /** The earliest time a waiter can fulfil after a reset, less its idle period. */
  function IdleFrom(w: World, x: Waiter): int {
    Max(w.clock, x.startedAt + x.idleMs) - x.idleMs
  }

  /** A reset that loses nothing for a tab, by what the observer holds: no request is
      active, and no waiter depends on the last activity. */
  ghost predicate ResetAllowed(w: World, tab: int) {
    && SetAt(w.state.active, tab) == {}
    && forall x :: x in w.state.waiters && x.status == Waiting && x.tab == tab && tab in w.state.last ==>
         w.state.last[tab] <= IdleFrom(w, x)
  }

  ghost predicate Guarded(clock: nat, actions: seq<Action>, tab: int) {
    forall k :: 0 <= k < |actions| && actions[k].Reset? ==> ResetAllowed(Run(clock, actions[..k]), tab)
  }

  lemma RunStep(clock: nat, actions: seq<Action>, a: Action)
    ensures Run(clock, actions + [a]) == Step(Run(clock, actions), a)
  {
    assert (actions + [a])[..|actions|] == actions;
  }

  lemma GuardedPrefix(clock: nat, actions: seq<Action>, n: nat, tab: int)
    requires Guarded(clock, actions, tab) && n <= |actions|
    ensures Guarded(clock, actions[..n], tab)
  {
    forall k | 0 <= k < n && actions[..n][k].Reset?
      ensures ResetAllowed(Run(clock, actions[..n][..k]), tab)
    {
      assert actions[k].Reset? && actions[..n][..k] == actions[..k];
    }
  }

  /** Nothing that the resets forgot matters to the tab's waiters. */
  ghost predicate NothingLost(w: World, tab: int)
    requires w.since <= |w.events|
  {
    && QuietAfter(w.events, 0, tab, w.clock)
    && Open(w.events[..w.since], tab) == {}
    && forall x :: x in w.state.waiters && x.status == Waiting && x.tab == tab ==>
         QuietAfter(w.events[..w.since], 0, tab, IdleFrom(w, x))
  }

  lemma EvaluationKeepsWaiters(s: State, tabs: set<int>, now: int, x: Waiter)
    requires x in Notified(s, tabs, now).waiters
    ensures exists y :: y in s.waiters && y == x.(timer := y.timer)
  {
    var i :| 0 <= i < |s.waiters| && Notified(s, tabs, now).waiters[i] == x;
    assert s.waiters[i] == x.(timer := s.waiters[i].timer);
  }

  /** Every waiting waiter waited before, or has just begun. */
  lemma StepWaiters(w: World, a: Action, x: Waiter)
    requires x in Step(w, a).state.waiters && x.status == Waiting
    ensures (exists y :: y in w.state.waiters && y == x.(timer := y.timer)) || (a.Wait? && x.startedAt == w.clock)
  {
    match a
    case Begin(d) =>
      if Tracked(d) {
        EvaluationKeepsWaiters(Counted(w, d, true).state, {d.tab}, w.clock, x);
      } else {
        assert x == x.(timer := x.timer);
      }
    case End(d) =>
      if Tracked(d) {
        EvaluationKeepsWaiters(Counted(w, d, false).state, {d.tab}, w.clock, x);
      } else {
        assert x == x.(timer := x.timer);
      }
    case Reset =>
      EvaluationKeepsWaiters(w.state.(active := map[], last := map[]),
                             w.state.active.Keys + w.state.subscribers.Keys, w.clock, x);
    case _ =>
      assert x == x.(timer := x.timer);
  }

  lemma ResetLosesNothing(w: World, tab: int)
    requires Inv(w) && NothingLost(w, tab) && ResetAllowed(w, tab)
    ensures NothingLost(Step(w, Reset), tab)
  {
    var v := Step(w, Reset);
    assert TabOk(w, tab);
    assert v.events[..v.since] == w.events;
    forall r: string
      ensures r !in Open(w.events, tab)
    {
      OpenSince(w, tab, r);
    }
    forall x | x in v.state.waiters && x.status == Waiting && x.tab == tab
      ensures QuietAfter(v.events[..v.since], 0, tab, IdleFrom(v, x))
    {
      StepWaiters(w, Reset, x);
      var y :| y in w.state.waiters && y == x.(timer := y.timer);
      assert WaiterOk(w, y);
      QuietSplits(w, tab, IdleFrom(w, y));
    }
  }

  lemma StepLosesNothing(w: World, a: Action, tab: int)
    requires Inv(w) && NothingLost(w, tab) && !a.Reset?
    ensures w.since <= |Step(w, a).events| && NothingLost(Step(w, a), tab)
  {
    var v := Step(w, a);
    assert v.since == w.since && v.events[..v.since] == w.events[..w.since];
    forall x | x in v.state.waiters && x.status == Waiting && x.tab == tab
      ensures QuietAfter(v.events[..v.since], 0, tab, IdleFrom(v, x))
    {
      StepWaiters(w, a, x);
      if y :| y in w.state.waiters && y == x.(timer := y.timer) {
        assert QuietAfter(w.events[..w.since], 0, tab, IdleFrom(w, y));
      } else {
        QuietSplits(w, tab, w.clock);
      }
    }
  }

  lemma {:induction false} GuardedRunsLoseNothing(clock: nat, actions: seq<Action>, tab: int)
    requires Guarded(clock, actions, tab)
    ensures Inv(Run(clock, actions)) && NothingLost(Run(clock, actions), tab)
  {
    EveryRunKeepsInv(clock, actions);
    if actions != [] {
      var n := |actions| - 1;
      GuardedPrefix(clock, actions, n, tab);
      GuardedRunsLoseNothing(clock, actions[..n], tab);
      if actions[n].Reset? {
        ResetLosesNothing(Run(clock, actions[..n]), tab);
      } else {
        StepLosesNothing(Run(clock, actions[..n]), actions[n], tab);
      }
    }
  }

  /** Soundness in runs with any number of resets that were allowed. */
  lemma GuardedResetsKeepIdleness(clock: nat, actions: seq<Action>, i: nat)
    requires Due(Run(clock, actions), i) && Guarded(clock, actions, Run(clock, actions).state.waiters[i].tab)
    ensures Idle(Run(clock, actions), i)
  {
    hide Run, Guarded, Inv, Mentioned, Open;
    var w := Run(clock, actions);
    var x := w.state.waiters[i];
    GuardedRunsLoseNothing(clock, actions, x.tab);
    IdleIffForgottenIsOver(clock, actions, i);
    IdleIsIdle(clock, actions, i);
    assert QuietAfter(w.events[..w.since], 0, x.tab, IdleFrom(w, x));
  }

  /** The last recorded activity is that of an event. */
  ghost predicate LastIsReal(w: World, tab: int) {
    tab in w.state.last ==>
      exists k :: w.since <= k < |w.events| && w.events[k].details.tab == tab && w.events[k].at == w.state.last[tab]
  }

  lemma StepKeepsLast(w: World, a: Action, tab: int)
    requires w.since <= |w.events| && LastIsReal(w, tab)
    ensures LastIsReal(Step(w, a), tab)
  {
    var v := Step(w, a);
    if tab in w.state.last {
      var k :| w.since <= k < |w.events| && w.events[k].details.tab == tab && w.events[k].at == w.state.last[tab];
      assert v.events[k] == w.events[k];
    }
    if v.events != w.events {
      assert v.events[|w.events|].at == w.clock;
    }
  }

  lemma {:induction false} LastActivityIsReal(clock: nat, actions: seq<Action>, tab: int)
    ensures LastIsReal(Run(clock, actions), tab)
  {
    if actions != [] {
      var before := actions[..|actions| - 1];
      LastActivityIsReal(clock, before, tab);
      EveryRunKeepsInv(clock, before);
      StepKeepsLast(Run(clock, before), actions[|actions| - 1], tab);
    }
  }

  /** After a reset, the tab's waiters keep the promise, however the run goes on until the
      next one. */
  ghost predicate KeepsIdleness(clock: nat, actions: seq<Action>, tab: int) {
    forall more: seq<Action>, i: nat ::
      (forall a :: a in more ==> !a.Reset?) && Due(Run(clock, actions + more), i) &&
      Run(clock, actions + more).state.waiters[i].tab == tab ==>
        Idle(Run(clock, actions + more), i)
  }

  /** A request that a reset forgets is missed by the next waiter. */
  lemma ForgottenRequestShows(clock: nat, actions: seq<Action>, tab: int)
    requires SetAt(Run(clock, actions).state.active, tab) != {}
    ensures !KeepsIdleness(clock, actions + [Reset], tab)
  {
    var w := Run(clock, actions);
    EveryRunKeepsInv(clock, actions);
    assert TabOk(w, tab);
    var r :| r in Open(w.events[w.since..], tab);
    OpenSince(w, tab, r);
    RunStep(clock, actions, Reset);
    RunStep(clock, actions + [Reset], Wait(tab, 0));
    assert Due(Run(clock, actions + [Reset] + [Wait(tab, 0)]), |w.state.waiters|);
  }

  /** Activity that a reset forgets is missed by a waiter that depends on it. */
  lemma ForgottenActivityShows(clock: nat, actions: seq<Action>, tab: int, i: nat)
    requires var w := Run(clock, actions);
      && i < |w.state.waiters| && w.state.waiters[i].status == Waiting && w.state.waiters[i].tab == tab
      && tab in w.state.last && IdleFrom(w, w.state.waiters[i]) < w.state.last[tab]
    ensures !KeepsIdleness(clock, actions + [Reset], tab)
  {
    var w := Run(clock, actions);
    var x := w.state.waiters[i];
    var at := IdleFrom(w, x) + x.idleMs;
    EveryRunKeepsInv(clock, actions);
    LastActivityIsReal(clock, actions, tab);
    assert WaiterOk(w, x) && TabOk(w, tab);
    RunStep(clock, actions, Reset);
    RunStep(clock, actions + [Reset], Tick(at));
    assert i in SetAt(w.state.subscribers, tab);
    assert Due(Run(clock, actions + [Reset] + [Tick(at)]), i);
  }

  /** The guard of `reset` is exact: if the earlier ones were allowed, the promise survives
      a reset, in every continuation, if and only if this one is allowed too. */
  lemma ResetKeepsIdlenessIff(clock: nat, actions: seq<Action>, tab: int)
    requires Guarded(clock, actions, tab)
    ensures KeepsIdleness(clock, actions + [Reset], tab) <==> ResetAllowed(Run(clock, actions), tab)
  {
    var w := Run(clock, actions);
    if ResetAllowed(w, tab) {
      forall more: seq<Action>, i: nat |
        (forall a :: a in more ==> !a.Reset?) && Due(Run(clock, actions + [Reset] + more), i) &&
        Run(clock, actions + [Reset] + more).state.waiters[i].tab == tab
        ensures Idle(Run(clock, actions + [Reset] + more), i)
      {
        GuardedContinues(clock, actions, more, tab);
        GuardedResetsKeepIdleness(clock, actions + [Reset] + more, i);
      }
    } else if SetAt(w.state.active, tab) != {} {
      ForgottenRequestShows(clock, actions, tab);
    } else {
      var x :| x in w.state.waiters && x.status == Waiting && x.tab == tab && tab in w.state.last &&
        IdleFrom(w, x) < w.state.last[tab];
      var i :| 0 <= i < |w.state.waiters| && w.state.waiters[i] == x;
      ForgottenActivityShows(clock, actions, tab, i);
    }
  }

  lemma GuardedContinues(clock: nat, actions: seq<Action>, more: seq<Action>, tab: int)
    requires Guarded(clock, actions, tab) && ResetAllowed(Run(clock, actions), tab)
    requires forall a :: a in more ==> !a.Reset?
    ensures Guarded(clock, actions + [Reset] + more, tab)
  {
    var all := actions + [Reset] + more;
    forall k | 0 <= k < |all| && all[k].Reset?
      ensures ResetAllowed(Run(clock, all[..k]), tab)
    {
      if k < |actions| {
        assert all[..k] == actions[..k] && actions[k].Reset?;
      } else if k == |actions| {
        assert all[..k] == actions;
      }
    }
  }

  /** A request begins, a reset forgets it, and a waiter waits out its period. */
  function ForgetfulWorld(d: Details): World {
    Step(Step(Step(Step(NewWorld(1000), Begin(d)), Reset), Wait(1, 500)), Tick(1500))
  }

  lemma ForgetfulRun(d: Details)
    ensures Run(1000, [Begin(d), Reset, Wait(1, 500), Tick(1500)]) == ForgetfulWorld(d)
  {
    hide Step;
    RunStep(1000, [], Begin(d));
    RunStep(1000, [Begin(d)], Reset);
    RunStep(1000, [Begin(d), Reset], Wait(1, 500));
    RunStep(1000, [Begin(d), Reset, Wait(1, 500)], Tick(1500));
    assert [] + [Begin(d)] == [Begin(d)];
    assert [Begin(d)] + [Reset] == [Begin(d), Reset];
    assert [Begin(d), Reset] + [Wait(1, 500)] == [Begin(d), Reset, Wait(1, 500)];
    assert [Begin(d), Reset, Wait(1, 500)] + [Tick(1500)] == [Begin(d), Reset, Wait(1, 500), Tick(1500)];
  }

  /** A reset that was not allowed: a request that began 500 ms ago is still open when a
      waiter for 500 idle milliseconds fulfils. */
  lemma ResetBreaksIdleness()
    ensures var d := Details(1, "r", false);
      var w := Run(1000, [Begin(d), Reset, Wait(1, 500), Tick(1500)]);
      Due(w, 0) && Open(w.events, 1) == {"r"} && !Idle(w, 0)
  {
    var d := Details(1, "r", false);
    ForgetfulRun(d);
    var w := ForgetfulWorld(d);
    assert Step(NewWorld(1000), Begin(d)).state.waiters == [];
    assert w.events == [Event(d, true, 1000)] && w.state.waiters == [Waiter(1, 500, 1000, Some(1500), Waiting)];
    assert Open(w.events[..0], 1) == {};
  }
}
