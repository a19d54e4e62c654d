/** What a swallowed failure of a table read costs: the subscriber keeps showing an earlier
    table, consistently, until another command makes it read again. */
module Failures {
  import opened Text
  import opened Commands
  import opened Naming
  import opened MediaTable
  import opened Reconciliation
  import opened Renegotiation
  import opened GuardTheorems
  import opened RoomSystem
  import opened RoomInvariant
  import opened NoLostUpdate
  import opened Convergence
  import opened Scenarios

  /** A quiet subscriber shows the table of its last successful read, and so does its browser, whatever
      has failed since; only an update that returned early spoils this. */
  lemma ShowsLastRead(start: System, events: seq<Event>, j: nat)
    requires Start(start) && Run(start, events) && NoReuse(Final(start, events).log)
    requires j < |Final(start, events).members|
    requires Quiet(Final(start, events).members[j].sub) && !Final(start, events).members[j].sub.errors.torn
    ensures Final(start, events).members[j].sub.readAt <= |Final(start, events).log|
    ensures
      var sys := Final(start, events);
      var s := sys.members[j].sub;
      s.tracks == Expected(Replay(sys.log[..s.readAt], s.room), s.user) && s.view == Senders(s)
  {
    RunStaysInStep(start, events);
    var sys := Final(start, events);
    assert MemberOk(sys.log, sys.instances, sys.members[j]) && InStep(sys.log, sys.members[j].sub);
  }

  // ---- the loss is real

  /** A command for a room without subscribers goes nowhere. */
  lemma NobodyToTell(start: System, sys: System) returns (next: System)
    requires Reachable(start, sys) && sys.members == []
    requires |sys.transit| == 1 && sys.transit[0].Delivery?
    ensures Reachable(start, next) && next == sys.(transit := [])
  {
    assert IsFanOrder(sys.members, sys.transit[0].instance, sys.transit[0].cmd.room, []);
    next := Go(start, sys, Deliver(0, []));
    next := Go(start, next, Retire(0));
  }

  lemma JoinedAlone(start: System, id: PubId) returns (sys: System)
    requires Start(start) && start.instances == 1 && '#' !in id.user
    ensures Reachable(start, sys) && sys.instances == 1
    ensures sys.log == [Increment(id.room, id.user, VIDEO)] && sys.transit == [] && Settled(sys) && sys.members == []
  {
    var alone := FirstConnects(start, id);
    var announced := TrackAndAnnounce(start, alone, id, VIDEO);
    SentExactly(1, id.room, PubJoin(id.user), 1);
    sys := announced;
    if announced.transit != [] {
      sys := NobodyToTell(start, announced);
    }
  }

  /** A publisher has joined and announced itself before the subscriber registers. */
  lemma JoinedBefore(start: System, id: PubId, s0: Subscriber) returns (sys: System)
    requires Start(start) && start.instances == 1 && Init(s0) && '#' !in id.user
    ensures Reachable(start, sys)
    ensures sys.log == [Increment(id.room, id.user, VIDEO)] && sys.transit == [] && Settled(sys)
    ensures sys.members == [Member(0, s0, [], Present)]
  {
    sys := JoinedAlone(start, id);
    sys := Go(start, sys, Register(0, s0));
  }

  /** A failing read leaves a subscriber out of step for good if no further command comes: the system
      is settled and quiet, and a track is missing. */
  lemma FailedReadIsNotMadeUpFor(start: System, id: PubId, s0: Subscriber) returns (sys: System)
    requires Start(start) && start.instances == 1 && '#' !in id.user
    requires Init(s0) && !s0.ordered && s0.room == id.room && !IsEcho(id.user, s0.user)
    ensures Reachable(start, sys)
    ensures Settled(sys) && sys.transit == [] && |sys.members| == 1
    ensures Quiet(sys.members[0].sub) && !sys.members[0].sub.errors.torn && !Agrees(sys, sys.members[0].sub)
  {
    var before := JoinedBefore(start, id, s0);
    assert WithSub(before, 0, s0) == before;
    var s := FirstOfferOfNothing(start, before, 0, s0, true);
    s := RoundEnds(start, before, 0, s);
    sys := WithSub(before, 0, s);
    OneTrackExpected(id, s0.user);
  }
}
