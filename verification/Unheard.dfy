/** A publisher whose commands are not heard: its tracks are never learnt of. Being heard is
    exactly what convergence needs of a name. */
module Unheard {
  import opened Text
  import opened Commands
  import opened Bus
  import opened Naming
  import opened MediaTable
  import opened Reconciliation
  import opened Renegotiation
  import opened GuardTheorems
  import opened RoomSystem
  import opened NoLostUpdate
  import opened Convergence
  import opened Scenarios

  /** All changes of the room are made by this publisher. */
  ghost predicate OnlyFrom(log: seq<Change>, id: PubId) {
    forall i :: 0 <= i < |log| && log[i].room == id.room ==> log[i].user == id.user
  }

  /** A connected subscriber of the publisher's room that has done all it ever will, with no error, while
      everybody has announced everything, and that still does not agree with its room. */
  ghost predicate OutOfStep(sys: System, j: nat, id: PubId, user: string) {
    && OnlyFrom(sys.log, id) && NoReuse(sys.log) && Settled(sys) && sys.transit == []
    && j < |sys.members| && sys.members[j].presence.Present?
    && sys.members[j].sub.room == id.room && sys.members[j].sub.user == user
    && Quiet(sys.members[j].sub) && Unharmed(sys.members[j].sub) && !Agrees(sys, sys.members[j].sub)
  }

  lemma HeardPublishersAreLearntOf(start: System, sys: System, j: nat, id: PubId, user: string)
    requires WellNamed(id.room, id.user) && Start(start) && Reachable(start, sys)
    ensures !OutOfStep(sys, j, id, user)
  {
    if OutOfStep(sys, j, id, user) {
      var events :| Run(start, events) && Final(start, events) == sys;
      assert AllAnnounceable(sys, sys.members[j].sub);
      Converges(start, events, j);
    }
  }

  /** A subscriber has read the empty table and come to rest; the publisher has brought no track yet. */
  lemma QuietInEmptyRoom(start: System, id: PubId, s0: Subscriber) returns (sys: System)
    requires Start(start) && start.instances > 0 && '#' !in id.user
    requires Init(s0) && !s0.ordered
    ensures Reachable(start, sys) && sys.log == [] && sys.transit == []
    ensures sys.pubs == map[id := Publisher(false, Up, false)]
    ensures |sys.members| == 1 && sys.members[0].presence.Present?
    ensures
      var s := sys.members[0].sub;
      Same(s0, s) && Quiet(s) && Unharmed(s) && s.tracks == {}
  {
    var connected := FirstConnects(start, id);
    var registered := Go(start, connected, Register(0, s0));
    assert WithSub(registered, 0, s0) == registered;
    var s := FirstOfferOfNothing(start, registered, 0, s0, false);
    s := RoundEnds(start, registered, 0, s);
    sys := WithSub(registered, 0, s);
  }

  /** For a user of more than 62 bytes, or a room that is no token of a subject, the subscriber is out of step
      although nothing failed on its side: the command did not fit its buffer, or no instance heard it. */
  lemma UnheardPublisherIsMissed(start: System, id: PubId, s0: Subscriber) returns (sys: System)
    requires Start(start) && start.instances > 0 && !WellNamed(id.room, id.user) && '#' !in id.user
    requires Init(s0) && !s0.ordered && s0.room == id.room && !IsEcho(id.user, s0.user)
    ensures Reachable(start, sys) && OutOfStep(sys, 0, id, s0.user)
  {
    var empty := QuietInEmptyRoom(start, id, s0);
    SentExactly(empty.instances, id.room, PubJoin(id.user), 1);
    sys := TrackAndAnnounce(start, empty, id, VIDEO);
    OneTrackExpected(id, s0.user);
  }

  /** A name is heard if and only if its publisher can never be missed. */
  lemma HeardIffNeverMissed(id: PubId, user: string)
    requires '#' !in id.user && !IsEcho(id.user, user)
    ensures WellNamed(id.room, id.user) <==>
            forall start, sys, j :: Start(start) && Reachable(start, sys) ==> !OutOfStep(sys, j, id, user)
  {
    if WellNamed(id.room, id.user) {
      forall start, sys, j: nat | Start(start) && Reachable(start, sys)
        ensures !OutOfStep(sys, j, id, user)
      {
        HeardPublishersAreLearntOf(start, sys, j, id, user);
      }
    } else {
      var start := System(1, [], map[], [], [], []);
      var s0 := Subscriber(id.room, user, false, [], NotOpen, Idle, false, false, None, None, Stable, [], 0, {}, {},
                           0, 0, 0, 0, Errors(false, false, false, {}));
      var sys := UnheardPublisherIsMissed(start, id, s0);
    }
  }
}
