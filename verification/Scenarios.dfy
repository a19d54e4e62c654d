/** Reachable states of the whole system, and the steps that build particular ones. */
module Scenarios {
  import opened Text
  import opened Commands
  import opened Bus
  import opened Naming
  import opened MediaTable
  import opened Reconciliation
  import opened Renegotiation
  import opened GuardTheorems
  import opened RoomSystem
  import opened Convergence

  ghost predicate Reachable(start: System, sys: System) {
    exists events :: Run(start, events) && Final(start, events) == sys
  }

  lemma {:induction false} RunAppend(sys: System, first: seq<Event>, second: seq<Event>)
    requires Run(sys, first) && Run(Final(sys, first), second)
    ensures Run(sys, first + second) && Final(sys, first + second) == Final(Final(sys, first), second)
    decreases |first|
  {
    if first == [] {
      assert first + second == second;
    } else {
      RunAppend(Happen(sys, first[0]), first[1..], second);
      assert (first + second)[1..] == first[1..] + second;
    }
  }

  lemma StartIsReachable(start: System)
    ensures Reachable(start, start)
  {
    assert Run(start, []) && Final(start, []) == start;
  }

  lemma Go(start: System, sys: System, e: Event) returns (next: System)
    requires Reachable(start, sys) && CanHappen(sys, e)
    ensures next == Happen(sys, e) && Reachable(start, next)
  {
    next := Happen(sys, e);
    var events :| Run(start, events) && Final(start, events) == sys;
    assert [e][1..] == [];
    assert Run(next, []) && Final(next, []) == next;
    assert Run(sys, [e]) && Final(sys, [e]) == next;
    RunAppend(start, events, [e]);
    assert Run(start, events + [e]);
  }

  ghost function WithSub(sys: System, j: nat, s: Subscriber): System
    requires j < |sys.members|
  {
    sys.(members := sys.members[j := sys.members[j].(sub := s)])
  }

  /** One act of a connected subscriber, everything else staying as it is. */
  lemma GoAct(start: System, sys: System, j: nat, s: Subscriber, a: Renegotiation.Act) returns (s': Subscriber)
    requires j < |sys.members| && !sys.members[j].presence.Closed?
    requires Reachable(start, WithSub(sys, j, s))
    requires !a.Enqueue? && Enabled(s, a) && Outcome(s, a) && ReadsNow(sys, s.room, a)
    ensures s' == Step(s, a) && Reachable(start, WithSub(sys, j, s'))
  {
    s' := Step(s, a);
    var next := Go(start, WithSub(sys, j, s), Act(j, a));
    assert next.members == WithSub(sys, j, s').members;
  }

  /** One more track of either kind, with the test that all tracks are there. */
  lemma TrackAndAnnounce(start: System, sys: System, id: PubId, kind: string) returns (next: System)
    requires Reachable(start, sys) && id in sys.pubs && !sys.pubs[id].midTrack && IsKind(kind)
    ensures Reachable(start, next)
    ensures next.log == sys.log + [Increment(id.room, id.user, kind)]
    ensures next.transit == sys.transit + Sent(sys.instances, id.room, PubJoin(id.user), |next.log|)
    ensures next.members == sys.members && next.instances == sys.instances
    ensures next.pubs == sys.pubs[id := Publisher(false, sys.pubs[id].closing, false)]
  {
    var mid := Go(start, sys, Track(id, kind));
    next := Go(start, mid, Ready(id, true));
  }

  /** A publisher connects and nobody else is there. */
  lemma FirstConnects(start: System, id: PubId) returns (next: System)
    requires Start(start) && '#' !in id.user
    ensures Reachable(start, next) && next == start.(pubs := map[id := Publisher(false, Up, false)])
  {
    StartIsReachable(start);
    next := Go(start, start, Connect(id));
  }

  /** The answer to the first offer is handled, and no further round is needed. */
  lemma RoundEnds(start: System, sys: System, j: nat, s0: Subscriber) returns (s: Subscriber)
    requires j < |sys.members| && !sys.members[j].presence.Closed? && Reachable(start, WithSub(sys, j, s0))
    requires s0.loop == Receiving && s0.handler == Idle && !s0.need && !s0.ordered
    requires s0.doingOwner == s0.needOwner == None && s0.queue == [] && s0.answers == 0
    requires |s0.down| == 1 && s0.down[0].Offer?
    ensures Reachable(start, WithSub(sys, j, s)) && Quiet(s)
    ensures Same(s0, s) && s.tracks == s0.tracks && s.errors == s0.errors
  {
    s := GoAct(start, sys, j, s0, Browse);
    s := GoAct(start, sys, j, s, ByHandler(Answer(true)));
    s := GoAct(start, sys, j, s, ByHandler(AnsLockNeed));
    s := GoAct(start, sys, j, s, ByHandler(AnsDecide));
    s := GoAct(start, sys, j, s, ByHandler(AnsLockDoing));
    s := GoAct(start, sys, j, s, ByHandler(AnsFinish));
    s := GoAct(start, sys, j, s, ByHandler(AnsUnlockBoth));
  }

  lemma UpdateFromEmptyTable(start: System, sys: System, j: nat, s0: Subscriber) returns (s: Subscriber)
    requires j < |sys.members| && !sys.members[j].presence.Closed? && Reachable(start, WithSub(sys, j, s0))
    requires s0.loop == Reading && s0.tracks == {} && s0.readAt == s0.appliedAt == 0
    requires sys.log == [] && s0.errors == Errors(false, false, false, {})
    ensures Reachable(start, WithSub(sys, j, s)) && s == s0.(loop := Offering)
  {
    s := GoAct(start, sys, j, s0, ByLoop(Read(map[], 0)));
    assert Reconciled(map[], s.user, {}) == {};
    s := GoAct(start, sys, j, s, ByLoop(ApplyTable(Effect(true, {}, {}))));
  }

  /** The initial update when it leaves no tracks: the read failed, or the table was empty. */
  lemma FirstUpdateOfNothing(start: System, sys: System, j: nat, s0: Subscriber, fails: bool) returns (s: Subscriber)
    requires j < |sys.members| && !sys.members[j].presence.Closed? && Reachable(start, WithSub(sys, j, s0))
    requires Init(s0) && (!fails ==> sys.log == [])
    ensures Reachable(start, WithSub(sys, j, s))
    ensures s == s0.(loop := Offering, doing := true, doingOwner := Some(LoopTask),
                     errors := Errors(false, fails, false, {}))
  {
    s := GoAct(start, sys, j, s0, ByLoop(Open));
    s := GoAct(start, sys, j, s, ByLoop(OpenLock));
    if fails {
      s := GoAct(start, sys, j, s, ByLoop(ReadFails));
    } else {
      s := UpdateFromEmptyTable(start, sys, j, s);
    }
  }

  lemma FirstOfferOfNothing(start: System, sys: System, j: nat, s0: Subscriber, fails: bool) returns (s: Subscriber)
    requires j < |sys.members| && !sys.members[j].presence.Closed? && Reachable(start, WithSub(sys, j, s0))
    requires Init(s0) && (!fails ==> sys.log == [])
    ensures Reachable(start, WithSub(sys, j, s))
    ensures s == s0.(loop := Receiving, doing := true, signaling := HaveLocalOffer, down := [Offer({})], made := 1,
                     errors := Errors(false, fails, false, {}))
  {
    s := FirstUpdateOfNothing(start, sys, j, s0, fails);
    assert Senders(s) == {};
    s := GoAct(start, sys, j, s, ByLoop(MakeOffer(true)));
    s := GoAct(start, sys, j, s, ByLoop(SendOffer(true)));
    s := GoAct(start, sys, j, s, ByLoop(Unlock));
  }

  lemma OneTrackExpected(id: PubId, sub: string)
    requires !IsEcho(id.user, sub)
    ensures Expected(Replay([Increment(id.room, id.user, VIDEO)], id.room), sub) != {}
  {
    var c := Increment(id.room, id.user, VIDEO);
    ReplayStep([], c, id.room);
    assert [] + [c] == [c];
    ExpectedIndex(Replay([c], id.room), sub, RowOf(c), 0);
  }
}
