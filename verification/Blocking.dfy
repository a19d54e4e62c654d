/** The deadlock in the whole system: it is reachable, it fills the subscriber's queue, and then
    it holds up fan-outs of the instance, all of it for good. */
module Blocking {
  import opened Text
  import opened Commands
  import opened Bus
  import opened Naming
  import opened MediaTable
  import opened Reconciliation
  import opened Renegotiation
  import opened GuardTheorems
  import opened RoomSystem
  import opened RoomInvariant
  import opened Draining
  import opened Scenarios

  /** Subscriber `j` is deadlocked with a full queue, and a fan-out waits to send to it. */
  ghost predicate Holds(sys: System, j: nat, t: Transit) {
    && t in sys.transit && t.Fan? && t.rest != [] && t.rest[0] == j && j < |sys.members|
    && Blocked(sys, t)
  }

  lemma PlaceKept(sys: System, e: Event, i: nat, j: nat)
    requires CanHappen(sys, e) && IsTransitEvent(e) && i < |sys.transit| && Holds(sys, j, sys.transit[i])
    ensures sys.transit[i] in Happen(sys, e).transit
  {
    var t := sys.transit[i];
    var next := Happen(sys, e);
    assert e.i != i;
    if e.Retire? && e.i < i {
      assert next.transit[i - 1] == t;
    } else {
      assert next.transit[i] == t;
    }
  }

  lemma TransitKept(sys: System, e: Event, j: nat, t: Transit)
    requires CanHappen(sys, e) && Holds(sys, j, t)
    ensures t in Happen(sys, e).transit
  {
    if IsTransitEvent(e) {
      var i :| 0 <= i < |sys.transit| && sys.transit[i] == t;
      PlaceKept(sys, e, i, j);
    }
  }

  lemma QueueStays(s: Subscriber, a: Renegotiation.Act)
    requires Inv(s) && Deadlocked(s) && Enabled(s, a) && !a.Enqueue?
    ensures Step(s, a).queue == s.queue
  {}

  /** The subscriber's own state: the deadlock, the full queue and its presence. */
  lemma MemberStaysBlocked(sys: System, e: Event, j: nat, t: Transit)
    requires Ok(sys) && CanHappen(sys, e) && Holds(sys, j, t)
    ensures j < |Happen(sys, e).members| && !Happen(sys, e).members[j].presence.Closed?
    ensures Deadlocked(Happen(sys, e).members[j].sub) && |Happen(sys, e).members[j].sub.queue| == CAPACITY
  {
    assert MemberOk(sys.log, sys.instances, sys.members[j]);
    if e.Act? && e.j == j {
      DeadlockStays(sys.members[j].sub, e.act);
      QueueStays(sys.members[j].sub, e.act);
    }
  }

  /** Whatever happens, the fan-out stays where it is, and the subscribers behind do not get its command. */
  lemma {:induction false} BlockedForGood(sys: System, events: seq<Event>, j: nat, t: Transit)
    requires Ok(sys) && Run(sys, events) && Holds(sys, j, t)
    ensures Holds(Final(sys, events), j, t)
    decreases |events|
  {
    if events != [] {
      HappenKeepsOk(sys, events[0]);
      TransitKept(sys, events[0], j, t);
      MemberStaysBlocked(sys, events[0], j, t);
      BlockedForGood(Happen(sys, events[0]), events[1..], j, t);
    }
  }

  // ---- reaching it

  /** One instance, one subscriber and a publisher whose commands it hears. */
  ghost predicate Alone(sys: System, id: PubId, s: Subscriber) {
    && sys.instances == 1 && sys.transit == []
    && |sys.members| == 1 && sys.members[0].presence.Present? && sys.members[0].instance == 0
    && sys.members[0].sub == s && s.room == id.room && WellNamed(id.room, id.user)
    && id in sys.pubs && !sys.pubs[id].midTrack
  }

  lemma AnnounceToOne(start: System, sys: System, id: PubId) returns (next: System, cmd: Cmd)
    requires |sys.members| == 1 && Alone(sys, id, sys.members[0].sub) && Reachable(start, sys)
    ensures cmd.payload.user == id.user && cmd.room == id.room && Reachable(start, next)
    ensures next.transit == [Delivery(0, cmd)] && next.members == sys.members && next.instances == sys.instances
    ensures id in next.pubs && !next.pubs[id].midTrack
  {
    next := TrackAndAnnounce(start, sys, id, VIDEO);
    cmd := Cmd(PubJoin(id.user), id.room, |next.log|);
    SentExactly(1, id.room, PubJoin(id.user), |next.log|);
    assert next.transit == [Delivery(0, cmd)];
  }

  lemma DeliverToOne(start: System, sys: System, id: PubId) returns (next: System, cmd: Cmd)
    requires |sys.members| == 1 && Alone(sys, id, sys.members[0].sub) && Reachable(start, sys)
    ensures cmd.payload.user == id.user && Reachable(start, next)
    ensures next.transit == [Fan(cmd, [0])] && next.members == sys.members && next.instances == sys.instances
    ensures id in next.pubs && !next.pubs[id].midTrack
  {
    next, cmd := AnnounceToOne(start, sys, id);
    assert IsFanOrder(next.members, 0, id.room, [0]);
    next := Go(start, next, Deliver(0, [0]));
  }

  /** The publisher adds a track, and the command reaches the subscriber's queue. */
  lemma CommandArrives(start: System, sys: System, id: PubId, s: Subscriber) returns (next: System, cmd: Cmd)
    requires Alone(sys, id, s) && Reachable(start, sys) && |s.queue| < CAPACITY
    ensures cmd.payload.user == id.user
    ensures Reachable(start, next) && Alone(next, id, s.(queue := s.queue + [cmd]))
  {
    next, cmd := DeliverToOne(start, sys, id);
    next := Go(start, next, Push(0));
    assert [0][1..] == [];
    next := Go(start, next, Retire(0));
  }

  lemma {:induction false} QueueFills(start: System, sys: System, id: PubId, s: Subscriber)
    returns (next: System, s': Subscriber)
    requires Alone(sys, id, s) && Reachable(start, sys) && |s.queue| <= CAPACITY && Deadlocked(s)
    ensures Reachable(start, next) && Alone(next, id, s') && Deadlocked(s') && |s'.queue| == CAPACITY
    decreases CAPACITY - |s.queue|
  {
    if |s.queue| == CAPACITY {
      next, s' := sys, s;
    } else {
      var cmd;
      next, cmd := CommandArrives(start, sys, id, s);
      next, s' := QueueFills(start, next, id, s.(queue := s.queue + [cmd]));
    }
  }

  /** The first answer is being handled when the command arrives. */
  lemma AnswerInHand(start: System, sys: System, s0: Subscriber) returns (s: Subscriber)
    requires |sys.members| == 1 && sys.members[0].presence.Present? && Reachable(start, WithSub(sys, 0, s0))
    requires Init(s0) && !s0.ordered
    ensures Reachable(start, WithSub(sys, 0, s)) && Same(s0, s)
    ensures s.loop == Receiving && s.handler == AnsWantDoing && s.doing && s.doingOwner == None && s.queue == []
  {
    s := FirstOfferOfNothing(start, sys, 0, s0, true);
    s := GoAct(start, sys, 0, s, Browse);
    s := GoAct(start, sys, 0, s, ByHandler(Answer(true)));
    s := GoAct(start, sys, 0, s, ByHandler(AnsLockNeed));
    s := GoAct(start, sys, 0, s, ByHandler(AnsDecide));
  }

  lemma LoopGetsStuck(start: System, sys: System, s0: Subscriber) returns (s: Subscriber)
    requires |sys.members| == 1 && sys.members[0].presence.Present? && Reachable(start, WithSub(sys, 0, s0))
    requires s0.loop == Receiving && s0.handler == AnsWantDoing && s0.doing && s0.doingOwner == None
    requires |s0.queue| == 1 && !IsOwn(s0, s0.queue[0])
    ensures Reachable(start, WithSub(sys, 0, s)) && Same(s0, s) && Deadlocked(s) && s.queue == []
  {
    s := GoAct(start, sys, 0, s0, ByLoop(Take));
    s := GoAct(start, sys, 0, s, ByLoop(Notify));
    s := GoAct(start, sys, 0, s, ByLoop(LockDoing));
    s := GoAct(start, sys, 0, s, ByLoop(Decide));
  }

  lemma OneOfEach(start: System, id: PubId, s0: Subscriber) returns (sys: System)
    requires Start(start) && start.instances == 1 && '#' !in id.user && WellNamed(id.room, id.user)
    requires Init(s0) && s0.room == id.room
    ensures Reachable(start, sys) && Alone(sys, id, s0)
  {
    sys := FirstConnects(start, id);
    sys := Go(start, sys, Register(0, s0));
  }

  /** One publisher that goes on adding tracks is enough to block a fan-out for good. */
  lemma BlockingIsReachable(start: System, id: PubId, s0: Subscriber) returns (sys: System, t: Transit)
    requires Start(start) && start.instances == 1 && '#' !in id.user && WellNamed(id.room, id.user)
    requires Init(s0) && !s0.ordered && s0.room == id.room && BaseId(id.user) != BaseId(s0.user)
    ensures Reachable(start, sys) && Holds(sys, 0, t)
  {
    sys := OneOfEach(start, id, s0);
    assert WithSub(sys, 0, s0) == sys;
    var s := AnswerInHand(start, sys, s0);
    var cmd;
    sys, cmd := CommandArrives(start, WithSub(sys, 0, s), id, s);
    s := s.(queue := s.queue + [cmd]);
    assert sys.members == WithSub(sys, 0, s).members;
    s := LoopGetsStuck(start, sys, s);
    sys, s := QueueFills(start, WithSub(sys, 0, s), id, s);
    sys, cmd := DeliverToOne(start, sys, id);
    t := Fan(cmd, [0]);
    assert sys.transit[0] == t;
  }
}
