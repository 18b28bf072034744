/** The session manager object: each method is the code of
    chrome-extension/src/cdp-session-manager.js between two awaits, and is proved to
    be the step of the same name on `CdpSessions.World`. */
module CdpManager {
  import opened CdpConsumers
  import opened CdpSessions
  import opened CdpTargets

  class CDPSessionManager {
    const settings: Settings
    var disposed: bool
    var sessions: map<nat, Session>
    /** The abstract state: all sessions and consumers ever created. */
    ghost var world: World

    /** The abstract state is the state of the objects, except perhaps for the
        record of the sessions in `changing`. */
    ghost predicate Tied(changing: set<Session>)
      reads this`world, world.sessions.Keys, world.queues.Keys
    {
      && (forall s: Session :: s in world.sessions ==> SessionTied(s, changing))
      && (forall c: Consumer :: c in world.queues ==> ConsumerTied(c))
    }

    ghost predicate SessionTied(s: Session, changing: set<Session>)
      requires s in world.sessions
      reads this`world, s
    {
      && (s !in changing ==> s.View() == world.sessions[s])
      && s.key == world.sessions[s].key
      && Homed(world.sessions[s].consumers)
    }

    ghost predicate ConsumerTied(c: Consumer)
      requires c in world.queues
      reads this`world, c
    {
      c.View() == world.queues[c] && c.limits == settings.limits
    }

    /** Registered consumers are known, and filed under their own id. */
    ghost predicate Homed(consumers: map<string, Consumer>)
      reads this`world
    {
      forall id :: id in consumers ==> consumers[id].id == id && consumers[id] in world.queues
    }

    ghost predicate Valid()
      reads this, world.sessions.Keys, world.queues.Keys
    {
      && Tied({})
      && world.disposed == disposed
      && world.mapped == sessions
      && Linked(world)
    }

    constructor (settings: Settings)
      requires LimitsAccepted(settings.limits)
      ensures this.settings == settings
      ensures Valid() && world == NEW_WORLD && Inv(world, settings)
    {
      this.settings := settings;
      disposed := false;
      sessions := map[];
      world := NEW_WORLD;
    }

    /** The deactivation loop, with the abstract state moved along. */
    method Empty(s: Session)
      requires Tied({s}) && s in world.sessions && s.consumers == world.sessions[s].consumers
      modifies this`world, s`consumers, s`childConsumerCount, s.consumers.Values
      ensures Tied({})
      ensures world == old(world).(
        mapped := sessions,
        sessions := old(world).sessions[s := WithoutConsumers(old(s.View()))],
        queues := AllDeactivated(old(world).queues, old(s.consumers)))
    {
      ghost var v := s.View();
      assert SessionTied(s, {s});
      s.DeactivateConsumers();
      world := world.(mapped := sessions,
                      sessions := world.sessions[s := WithoutConsumers(v)],
                      queues := AllDeactivated(world.queues, v.consumers));
      forall t: Session | t in world.sessions
        ensures SessionTied(t, {})
      {
        assert old(SessionTied(t, {s}));
      }
      forall c: Consumer | c in world.queues
        ensures ConsumerTied(c)
      {
        assert old(ConsumerTied(c));
        if !IsRegistered(v.consumers, c) { assert c.View() == old(c.View()); }
      }
    }

    /** Unmaps a session that is still mapped, and empties it. */
    method Depart(s: Session)
      requires Tied({s}) && s in world.sessions && s.consumers == world.sessions[s].consumers
      requires world.disposed == disposed && world.mapped == sessions && Linked(world)
      modifies this`sessions, this`world, s`consumers, s`childConsumerCount, s.consumers.Values
      ensures Valid() && world == Departed(old(world), s, old(s.View()))
    {
      assert SessionTied(s, {s});
      Unmap(s);
      Empty(s);
    }

    method Unmap(s: Session)
      modifies this`sessions
      ensures sessions == Unmapped(old(sessions), s.key, s)
    {
      if s.key in sessions && sessions[s.key] == s {
        sessions := sessions - {s.key};
      }
    }

    method CloseSession(s: Session, reason: string, notify: bool)
      requires Valid() && s in world.sessions
      modifies this`sessions, this`world, s, s.consumers.Values
      ensures Valid() && world == Close(old(world), s, reason, notify)
    {
      if s.state == Attaching {
        AskToClose(s, reason, notify);
      } else if s.state == Attached {
        assert SessionTied(s, {});
        StartDetach(s);
        Depart(s);
      }
    }

    method StartDetach(s: Session)
      modifies s`state, s`detachCalls, s`detachPending, s`childSessions, s`frameContexts
      ensures s.View() == Closing(old(s.View()))
    {
      s.state := Detaching;
      s.detachCalls := s.detachCalls + 1;
      s.detachPending := true;
      s.ClearTree();
    }

    method AskToClose(s: Session, reason: string, notify: bool)
      requires Valid() && s in world.sessions && s.state == Attaching
      modifies this`world, s`closeRequested, s`consumers, s`childConsumerCount, s.consumers.Values
      ensures Valid() && world == Close(old(world), s, reason, notify)
    {
      assert SessionTied(s, {});
      s.closeRequested := reason;
      if notify { Empty(s); } else { Restate(s); }
    }

    /** Moves the abstract state along with a change of the session's own fields. */
    ghost method Restate(s: Session)
      requires s in world.sessions && s.key == world.sessions[s].key && Homed(s.consumers)
      requires forall t: Session :: t in world.sessions && t != s ==> SessionTied(t, {})
      requires forall c: Consumer :: c in world.queues ==> ConsumerTied(c)
      modifies this`world
      ensures Tied({}) && world == Restated(old(world), s, s.View())
    {
      world := Restated(world, s, s.View());
      forall t: Session | t in world.sessions
        ensures SessionTied(t, {})
      {
        assert t != s ==> old(SessionTied(t, {}));
      }
      forall c: Consumer | c in world.queues
        ensures ConsumerTied(c)
      {
        assert old(ConsumerTied(c));
      }
    }

    /** `acquire` up to its first await. */
    method Acquire(tab: nat, consumerId: string, includeChildTargets: bool, aborted: bool)
      returns (result: AcquireResult, newcomer: Session, consumer: Consumer)
      requires Valid()
      modifies this, world.sessions.Keys
      ensures Valid()
      ensures fresh(newcomer) && fresh(consumer)
      ensures consumer.id == consumerId && consumer.includeChildTargets == includeChildTargets
      ensures (world, result) == CdpSessions.Acquire(old(world), settings, tab, aborted, newcomer, consumer)
    {
      newcomer := new Session(tab);
      consumer := new Consumer(consumerId, includeChildTargets, settings.limits);
      if disposed { return Refused(ManagerClosed), newcomer, consumer; }
      if includeChildTargets && !settings.supportsFlatSessions {
        return Refused(FlatSessionsUnavailable), newcomer, consumer;
      }
      if aborted { return Refused(Cancelled), newcomer, consumer; }
      if tab !in sessions {
        if |sessions| >= settings.limits.maxSessions { return Refused(TooManySessions), newcomer, consumer; }
        AddSession(tab, newcomer);
      }
      result := Register(sessions[tab], consumer);
    }

    method Register(s: Session, c: Consumer) returns (result: AcquireResult)
      requires Valid() && s in world.sessions && c !in world.queues
      requires c.View() == NEW_QUEUE && c.limits == settings.limits
      modifies this`world, s`consumers, s`childConsumerCount
      ensures Valid() && (world, result) == CdpSessions.Register(old(world), settings, s, c)
    {
      assert SessionTied(s, {});
      if c.id in s.consumers { return Refused(DuplicateConsumer); }
      if |s.consumers| >= settings.limits.maxConsumersPerSession { return Refused(TooManyConsumers); }
      AddConsumer(s, c);
      result := Registered(s);
    }

    /** `releaseConsumer` up to its first await, or to its end if there is none. */
    method ReleaseConsumer(s: Session, c: Consumer)
      requires Valid() && s in world.sessions && c in world.queues
      modifies this`sessions, this`world, s, c, s.consumers.Values
      ensures Valid() && world == Release(old(world), s, c)
    {
      assert SessionTied(s, {}) && ConsumerTied(c);
      if !c.active { return; }
      if c.id !in s.consumers || s.consumers[c.id] != c {
        Silence(c);
        return;
      }
      Unjoin(s, c);
      TailOfManyIsNothing(world, s);
      if c.includeChildTargets && s.childConsumerCount == 0 && |s.consumers| > 0 {
        return; // disableAutoAttach suspends here; ResumeRelease continues
      }
      ResumeRelease(s);
    }

    /** `releaseConsumer` after the await of `disableAutoAttach`. */
    method ResumeRelease(s: Session)
      requires Valid() && s in world.sessions
      modifies this`sessions, this`world, s, s.consumers.Values
      ensures Valid() && world == ReleaseTail(old(world), s)
    {
      assert SessionTied(s, {});
      if |s.consumers| == 0 {
        if s.state == Attaching {
          s.closeRequested := "last_consumer_released";
          Restate(s);
        } else {
          CloseSession(s, "last_consumer_released", false);
        }
      }
    }

    method Silence(c: Consumer)
      requires Valid() && c in world.queues
      modifies this`world, c
      ensures Valid() && world == old(world).(queues := old(world).queues[c := DeactivateView(old(world).queues[c])])
    {
      assert ConsumerTied(c);
      c.Deactivate();
      Requeue(c);
    }

    method Unjoin(s: Session, c: Consumer)
      requires Valid() && s in world.sessions && c in world.queues
      modifies this`world, s`consumers, s`childConsumerCount, c
      ensures Valid() && world == Unjoined(old(world), s, c)
      ensures s.consumers.Values <= old(s.consumers).Values
    {
      assert SessionTied(s, {});
      Silence(c);
      assert SessionTied(s, {});
      s.Remove(c);
      Restate(s);
    }

    method AddSession(tab: nat, newcomer: Session)
      requires Valid() && newcomer !in world.sessions && newcomer.View() == NewSession(tab)
      modifies this
      ensures Valid() && world == Created(old(world), tab, newcomer)
    {
      sessions := sessions[tab := newcomer];
      world := Created(world, tab, newcomer);
      forall t: Session | t in world.sessions
        ensures SessionTied(t, {})
      {
        if t != newcomer { assert old(SessionTied(t, {})); }
      }
      forall c: Consumer | c in world.queues
        ensures ConsumerTied(c)
      {
        assert old(ConsumerTied(c));
      }
    }

    method AddConsumer(s: Session, c: Consumer)
      requires Valid() && s in world.sessions && c !in world.queues
      requires c.View() == NEW_QUEUE && c.limits == settings.limits
      modifies this`world, s`consumers, s`childConsumerCount
      ensures Valid()
      ensures world == WithConsumer(old(world), s, c)
    {
      assert SessionTied(s, {});
      Enroll(s, c);
      assert SessionTied(s, {});
      s.Add(c);
      Restate(s);
    }

    /** A new consumer object becomes known. */
    ghost method Enroll(s: Session, c: Consumer)
      requires Tied({}) && c !in world.queues && c.View() == NEW_QUEUE && c.limits == settings.limits
      modifies this`world
      ensures Tied({})
      ensures world == old(world).(queues := old(world).queues[c := NEW_QUEUE], home := old(world).home[c := s])
    {
      world := world.(queues := world.queues[c := NEW_QUEUE], home := world.home[c := s]);
      forall t: Session | t in world.sessions
        ensures SessionTied(t, {})
      {
        assert old(SessionTied(t, {}));
      }
      forall d: Consumer | d in world.queues
        ensures ConsumerTied(d)
      {
        if d != c { assert old(ConsumerTied(d)); }
      }
    }

    /** `attachSession` after a successful attach. */
    method MarkAttached(s: Session)
      requires Valid() && s in world.sessions
      modifies this`world, s`state, s`attachPending, s`attachSucceeded
      ensures Valid() && world == Restated(old(world), s,
        old(world).sessions[s].(state := Attached, attachPending := false, attachSucceeded := true))
      ensures s.View() == world.sessions[s]
    {
      assert SessionTied(s, {});
      s.state := Attached;
      s.attachPending, s.attachSucceeded := false, true;
      Restate(s);
    }

    method AttachResolved(s: Session)
      requires Valid() && s in world.sessions && s.attachPending
      modifies this`sessions, this`world, s, s.consumers.Values
      ensures Valid()
      ensures world == CdpSessions.AttachResolved(old(world), s)
    {
      hide Close, Linked;
      MarkAttached(s);
      if s.closeRequested != "" || |s.consumers| == 0 || disposed {
        CloseSession(s, if s.closeRequested != "" then s.closeRequested else "unused_session", false);
      }
    }

    /** The `catch` branch of `attachSession`. */
    method AttachRejected(s: Session)
      requires Valid() && s in world.sessions && s.attachPending
      modifies this`sessions, this`world, s, s.consumers.Values
      ensures Valid()
      ensures world == CdpSessions.AttachRejected(old(world), s)
    {
      assert SessionTied(s, {});
      s.state := Failed;
      s.attachPending := false;
      Depart(s);
    }

    /** The `finally` branch of `closeSession`. */
    method DetachSettled(s: Session)
      requires Valid() && s in world.sessions && s.detachPending
      modifies this`world, s
      ensures Valid()
      ensures world == CdpSessions.DetachSettled(old(world), s)
    {
      assert SessionTied(s, {});
      s.state := Detached;
      s.detachPending := false;
      Restate(s);
    }

    /** `handleDetach`. */
    method HandleDetach(tab: nat)
      requires Valid()
      modifies this`sessions, this`world, world.sessions.Keys, world.queues.Keys
      ensures Valid()
      ensures world == BrowserDetach(old(world), tab)
    {
      if tab !in sessions { return; }
      var s := sessions[tab];
      assert SessionTied(s, {});
      s.state := Detached;
      s.ClearTree();
      Depart(s);
    }

    /** `acquire` once the session is ready: the lease is handed out, or the consumer
        released.  A consumer with child targets goes on to `FinishAutoAttach` instead. */
    method FinishAcquire(s: Session, c: Consumer, aborted: bool) returns (granted: bool)
      requires Valid() && s in world.sessions && c in world.queues
      modifies this`sessions, this`world, s, c, s.consumers.Values
      ensures Valid() && world == CdpSessions.FinishAcquire(old(world), s, c, aborted)
      ensures granted <==> old(c.active) && old(s.state) == Attached && !aborted
      ensures granted <==> c.active
      ensures granted ==> world == old(world)
    {
      assert SessionTied(s, {}) && ConsumerTied(c);
      granted := c.active && s.state == Attached && !aborted;
      if !granted {
        ReleaseSilences(world, s, c);
        ReleaseConsumer(s, c);
        assert ConsumerTied(c);
      }
    }

    /** `acquire` after the await of `ensureAutoAttach`: nothing looks at the session again. */
    method FinishAutoAttach(s: Session, c: Consumer, failed: bool, aborted: bool) returns (granted: bool)
      requires Valid() && s in world.sessions && c in world.queues && c.includeChildTargets
      modifies this`sessions, this`world, s, c, s.consumers.Values
      ensures Valid() && (granted <==> !failed && !aborted)
      ensures world == if granted then old(world) else Release(old(world), s, c)
    {
      granted := !failed && !aborted;
      if !granted { ReleaseConsumer(s, c); }
    }

    /** `detachAll`: every mapped session is closed before anything else can run. */
    method DetachAll(reason: string)
      requires Valid() && Owned(world)
      modifies this`sessions, this`world, world.sessions.Keys, world.queues.Keys
      ensures Valid() && world == CdpSessions.DetachAll(old(world), reason)
    {
      hide *;
      ghost var w := world;
      var todo := sessions.Values;
      ghost var done: set<Session> := {};
      NothingClosed(reason);
      while todo != {}
        invariant Valid() && done + todo == w.mapped.Values && done !! todo
        invariant world == CloseMany(w, done, reason)
        decreases todo
      {
        var s :| s in todo;
        CloseManyKeys(w, done, reason);
        CloseNext(w, done, s, reason);
        todo := todo - {s};
        done := done + {s};
      }
    }

    lemma NothingClosed(reason: string)
      requires Valid()
      ensures sessions == world.mapped && world.mapped.Values <= world.sessions.Keys
      ensures CloseMany(world, {}, reason) == world
      ensures CdpSessions.DetachAll(world, reason) == CloseMany(world, world.mapped.Values, reason)
    {
      CloseNone(world, reason);
    }

    method CloseNext(ghost w: World, ghost done: set<Session>, s: Session, reason: string)
      requires Valid() && Owned(w) && done <= w.mapped.Values && s in w.mapped.Values && s !in done
      requires world == CloseMany(w, done, reason)
      modifies this`sessions, this`world, world.sessions.Keys, world.queues.Keys
      ensures Valid() && world == CloseMany(w, done + {s}, reason)
    {
      CloseOneMore(w, done, s, reason);
      assert SessionTied(s, {});
      CloseSession(s, reason, true);
    }

    method Dispose()
      requires Valid() && Owned(world)
      modifies this`sessions, this`world, this`disposed, world.sessions.Keys, world.queues.Keys
      ensures Valid() && world == CdpSessions.Dispose(old(world))
    {
      if disposed { return; }
      MarkDisposed();
      DetachAll("manager_disposed");
    }

    method MarkDisposed()
      requires Valid()
      modifies this`world, this`disposed
      ensures Valid() && world == old(world).(disposed := true)
    {
      disposed := true;
      world := world.(disposed := true);
      forall t: Session | t in world.sessions
        ensures SessionTied(t, {})
      {
        assert old(SessionTied(t, {}));
      }
      forall c: Consumer | c in world.queues
        ensures ConsumerTied(c)
      {
        assert old(ConsumerTied(c));
      }
    }

    /** `handleEvent`: `size` is the size of the event, and `wanted` are the consumers that
        asked for this kind of event. */
    method HandleEvent(tab: nat, source: string, e: Event, wanted: set<Consumer>, size: nat)
      requires Valid() && QueueBytesExact(world) && LimitsAccepted(settings.limits)
      modifies this`world, world.sessions.Keys, world.queues.Keys
      ensures Valid() && world == Emit(old(world), settings, tab, source, e, wanted, size)
    {
      if tab !in sessions { return; }
      var s := sessions[tab];
      assert SessionTied(s, {});
      if s.state != Attached { return; }
      if source != "" && source !in s.childSessions { return; }
      hide Offered, Heard, LimitsAccepted, QueueBytesExact;
      Hear(s, source, e, wanted, size);
    }

    method Hear(s: Session, source: string, e: Event, wanted: set<Consumer>, size: nat)
      requires Valid() && QueueBytesExact(world) && LimitsAccepted(settings.limits) && s in world.sessions
      modifies this`world, s`childSessions, s`frameContexts, world.queues.Keys
      ensures Valid()
      ensures world ==
        Offered(Restated(old(world), s, Heard(old(world).sessions[s], source, e)), settings, s, source, wanted, size)
    {
      hide Offered, Heard, LimitsAccepted;
      MoveTree(s, source, e);
      OfferToAll(s, source, wanted, size);
    }

    method MoveTree(s: Session, source: string, e: Event)
      requires Valid() && s in world.sessions
      modifies this`world, s`childSessions, s`frameContexts
      ensures Valid() && world == Restated(old(world), s, Heard(old(world).sessions[s], source, e))
    {
      assert SessionTied(s, {});
      s.HandleEvent(source, e);
      Restate(s);
    }

    /** `disableAutoAttach` once it knows that it is enabled. */
    method DisableAutoAttach(s: Session)
      requires Valid() && s in world.sessions
      modifies this`world, s`childSessions, s`frameContexts
      ensures Valid() && world == AutoAttachOff(old(world), s)
    {
      assert SessionTied(s, {});
      s.DisableAutoAttach();
      Restate(s);
    }

    /** The fan-out of `handleEvent`. */
    method OfferToAll(s: Session, source: string, wanted: set<Consumer>, size: nat)
      requires Valid() && QueueBytesExact(world) && LimitsAccepted(settings.limits) && s in world.sessions
      modifies this`world, world.queues.Keys
      ensures Valid() && world == Offered(old(world), settings, s, source, wanted, size)
    {
      hide Bytes, OfferView, LimitsAccepted;
      RegisteredAreTied(s);
      hide QueueBytesExact;
      s.FanOut(source, wanted, size, settings.limits);
      forall t: Session | t in world.sessions
        ensures SessionTied(t, {})
      {
        assert old(SessionTied(t, {}));
      }
      ghost var queues := Offered(world, settings, s, source, wanted, size).queues;
      forall c: Consumer | c in world.queues
        ensures c.View() == queues[c] && c.limits == settings.limits
      {
        assert old(ConsumerTied(c));
        if IsRegistered(s.consumers, c) {
          assert c in s.consumers.Values;
        } else {
          assert c.View() == old(c.View());
        }
      }
      MoveQueues(queues);
    }

    /** Moves the abstract state along with changes of the consumers' own fields. */
    ghost method MoveQueues(queues: map<Consumer, QueueView>)
      requires queues.Keys == world.queues.Keys
      requires forall t: Session :: t in world.sessions ==> SessionTied(t, {})
      requires forall c: Consumer :: c in world.queues ==> c.View() == queues[c] && c.limits == settings.limits
      modifies this`world
      ensures Tied({}) && world == old(world).(queues := queues)
    {
      world := world.(queues := queues);
      forall t: Session | t in world.sessions
        ensures SessionTied(t, {})
      {
        assert old(SessionTied(t, {}));
      }
    }

    lemma RegisteredAreTied(s: Session)
      requires Valid() && QueueBytesExact(world) && s in world.sessions
      ensures s.Filed() && s.consumers.Values <= world.queues.Keys
      ensures forall c: Consumer :: c in s.consumers.Values ==>
        c.queueBytes == Bytes(c.queue) && c.limits == settings.limits
    {
      assert SessionTied(s, {});
      forall c: Consumer | c in s.consumers.Values
        ensures c.queueBytes == Bytes(c.queue) && c.limits == settings.limits
      {
        assert ConsumerTied(c);
      }
    }

    method ResumeDrain(c: Consumer)
      requires Valid() && c in world.queues && c.draining
      modifies this`world, c
      ensures Valid() && world == CdpSessions.ResumeDrain(old(world), c)
    {
      assert ConsumerTied(c);
      c.DrainTurn();
      Requeue(c);
    }

    /** Moves the abstract state along with a change of one consumer's own fields. */
    ghost method Requeue(c: Consumer)
      requires c in world.queues && c.limits == settings.limits
      requires forall t: Session :: t in world.sessions ==> SessionTied(t, {})
      requires forall d: Consumer :: d in world.queues && d != c ==> ConsumerTied(d)
      modifies this`world
      ensures Tied({}) && world == old(world).(queues := old(world).queues[c := c.View()])
    {
      world := world.(queues := world.queues[c := c.View()]);
      forall t: Session | t in world.sessions
        ensures SessionTied(t, {})
      {
        assert old(SessionTied(t, {}));
      }
      forall d: Consumer | d in world.queues
        ensures ConsumerTied(d)
      {
        assert d != c ==> old(ConsumerTied(d));
      }
    }
  }
}
