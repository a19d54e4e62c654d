/** A departing publisher: its latch makes it announce its departure once, and its rows are
    gone from the table by then. */
module Departures {
  import opened Text
  import opened Commands
  import opened Naming
  import opened MediaTable
  import opened Reconciliation
  import opened Renegotiation
  import opened RoomSystem
  import opened Convergence

  predicate IsLeave(cmd: Cmd, id: PubId) {
    cmd.payload == PubLeft(id.user) && cmd.room == id.room
  }

  function Leaves(cmds: seq<Cmd>, id: PubId): nat {
    if cmds == [] then 0
    else Leaves(cmds[..|cmds| - 1], id) + if IsLeave(cmds[|cmds| - 1], id) then 1 else 0
  }

  lemma LeavesStep(cmds: seq<Cmd>, cmd: Cmd, id: PubId)
    ensures Leaves(cmds + [cmd], id) == Leaves(cmds, id) + if IsLeave(cmd, id) then 1 else 0
  {
    assert (cmds + [cmd])[..|cmds|] == cmds;
  }

  predicate HasLeft(sys: System, id: PubId) {
    id in sys.pubs && sys.pubs[id].closing == Left
  }

  lemma DeliveryPublishesNothing(sys: System, e: Event)
    requires CanHappen(sys, e) && !IsPublisherEvent(e)
    ensures Happen(sys, e).log == sys.log
    ensures Happen(sys, e).published == sys.published && Happen(sys, e).pubs == sys.pubs
  {}

  lemma OnlyAnnouncingLeaves(sys: System, e: Event, id: PubId)
    requires CanHappen(sys, e) && IsPublisherEvent(e)
    ensures HasLeft(Happen(sys, e), id) <==> HasLeft(sys, id) || e == AnnounceLeft(id)
  {}

  lemma HappenCountsLeaves(sys: System, e: Event, id: PubId)
    requires CanHappen(sys, e)
    requires Leaves(sys.published, id) == if HasLeft(sys, id) then 1 else 0
    ensures Leaves(Happen(sys, e).published, id) == if HasLeft(Happen(sys, e), id) then 1 else 0
  {
    if IsPublisherEvent(e) {
      OnlyAnnouncingLeaves(sys, e, id);
      if e.Ready? && e.all {
        LeavesStep(sys.published, Cmd(PubJoin(e.id.user), e.id.room, |sys.log|), id);
      } else if e.AnnounceLeft? {
        LeavesStep(sys.published, Cmd(PubLeft(e.id.user), e.id.room, |sys.log|), id);
      }
    } else {
      DeliveryPublishesNothing(sys, e);
    }
  }

  /** However many reports of failure or closing a run holds, the latch lets one PubLeft through. */
  lemma {:induction false} LeavesOnce(sys: System, events: seq<Event>, id: PubId)
    requires Run(sys, events)
    requires Leaves(sys.published, id) == if HasLeft(sys, id) then 1 else 0
    ensures Leaves(Final(sys, events).published, id) == if HasLeft(Final(sys, events), id) then 1 else 0
    decreases |events|
  {
    if events != [] {
      HappenCountsLeaves(sys, events[0], id);
      LeavesOnce(Happen(sys, events[0]), events[1..], id);
    }
  }

  // ---- the rows of a publisher that has left

  ghost predicate RowsGone(sys: System, id: PubId) {
    var m := Replay(sys.log, id.room);
    id in sys.pubs ==>
      && (sys.pubs[id].closing in {VideoGone, MediaGone, Left} ==> Row(id.user, VIDEO) !in m)
      && (sys.pubs[id].closing in {MediaGone, Left} ==> Row(id.user, AUDIO) !in m)
  }

  lemma ChangeKeepsRowsGone(sys: System, id: PubId, c: Change)
    ensures Replay(sys.log + [c], id.room) ==
            if c.room == id.room then Apply(Replay(sys.log, id.room), c) else Replay(sys.log, id.room)
  {
    ReplayStep(sys.log, c, id.room);
  }

  lemma HappenKeepsRowsGone(sys: System, e: Event, id: PubId)
    requires CanHappen(sys, e) && Prompt(sys, e) && RowsGone(sys, id)
    ensures RowsGone(Happen(sys, e), id)
  {
    if !IsPublisherEvent(e) {
      DeliveryPublishesNothing(sys, e);
      return;
    }
    match e
    case Track(who, kind) => ChangeKeepsRowsGone(sys, id, Increment(who.room, who.user, kind));
    case RemoveVideo(who) => ChangeKeepsRowsGone(sys, id, Delete(who.room, who.user, VIDEO));
    case RemoveAudio(who) => ChangeKeepsRowsGone(sys, id, Delete(who.room, who.user, AUDIO));
    case _ =>
  }

  /** When a departure is announced, no row of the publisher is left, and none comes back. */
  lemma {:induction false} DepartedAreForgotten(sys: System, events: seq<Event>, id: PubId)
    requires Run(sys, events) && AllPrompt(sys, events) && RowsGone(sys, id)
    ensures RowsGone(Final(sys, events), id)
    decreases |events|
  {
    if events != [] {
      HappenKeepsRowsGone(sys, events[0], id);
      DepartedAreForgotten(Happen(sys, events[0]), events[1..], id);
    }
  }

  // ---- the latch and the way out

  predicate IsLatched(sys: System, id: PubId) {
    id in sys.pubs && sys.pubs[id].closing != Up
  }

  lemma HappenLatches(sys: System, e: Event, id: PubId)
    requires CanHappen(sys, e)
    ensures IsLatched(Happen(sys, e), id) <==> IsLatched(sys, id) || e == Report(id)
  {
    if !IsPublisherEvent(e) {
      DeliveryPublishesNothing(sys, e);
    }
  }

  /** The latch is set exactly when the connection was reported as failed, disconnected or closed. */
  lemma {:induction false} RunLatches(sys: System, events: seq<Event>, id: PubId)
    requires Run(sys, events)
    ensures IsLatched(Final(sys, events), id) <==> IsLatched(sys, id) || Report(id) in events
    decreases |events|
  {
    if events != [] {
      HappenLatches(sys, events[0], id);
      RunLatches(Happen(sys, events[0]), events[1..], id);
      assert events == [events[0]] + events[1..];
    }
  }

  /** A latched connection goes all the way: its rows go, video first, then its departure is published. */
  lemma LatchedCanLeave(sys: System, id: PubId)
    requires id in sys.pubs && sys.pubs[id].closing == Latched
    ensures CanHappen(sys, RemoveVideo(id))
    ensures
      var s1 := Happen(sys, RemoveVideo(id));
      CanHappen(s1, RemoveAudio(id)) &&
      var s2 := Happen(s1, RemoveAudio(id));
      CanHappen(s2, AnnounceLeft(id)) &&
      var s3 := Happen(s2, AnnounceLeft(id));
      && HasLeft(s3, id) && s3.published == sys.published + [Cmd(PubLeft(id.user), id.room, |sys.log| + 2)]
      && s3.log == sys.log + [Delete(id.room, id.user, VIDEO), Delete(id.room, id.user, AUDIO)]
  {}

  // ---- what is published, by the events alone

  function PublishedBy(e: Event): seq<(string, Command)> {
    match e
    case Ready(id, all) => if all then [(id.room, PubJoin(id.user))] else []
    case AnnounceLeft(id) => [(id.room, PubLeft(id.user))]
    case _ => []
  }

  function AllPublishedBy(events: seq<Event>): seq<(string, Command)> {
    if events == [] then [] else PublishedBy(events[0]) + AllPublishedBy(events[1..])
  }

  /** The commands without the history stamp. */
  function Unstamped(cmds: seq<Cmd>): (r: seq<(string, Command)>)
    ensures |r| == |cmds|
  {
    if cmds == [] then []
    else Unstamped(cmds[..|cmds| - 1]) + [(cmds[|cmds| - 1].room, cmds[|cmds| - 1].payload)]
  }

  lemma UnstampedStep(cmds: seq<Cmd>, cmd: Cmd)
    ensures Unstamped(cmds + [cmd]) == Unstamped(cmds) + [(cmd.room, cmd.payload)]
  {
    assert (cmds + [cmd])[..|cmds|] == cmds;
  }

  lemma HappenPublishes(sys: System, e: Event)
    requires CanHappen(sys, e)
    ensures Unstamped(Happen(sys, e).published) == Unstamped(sys.published) + PublishedBy(e)
  {
    if !IsPublisherEvent(e) {
      DeliveryPublishesNothing(sys, e);
    } else if e.Ready? && e.all {
      UnstampedStep(sys.published, Cmd(PubJoin(e.id.user), e.id.room, |sys.log|));
    } else if e.AnnounceLeft? {
      UnstampedStep(sys.published, Cmd(PubLeft(e.id.user), e.id.room, |sys.log|));
    }
  }

  /** A join is published exactly when all tracks are there, a departure when the rows are gone, in this order. */
  lemma {:induction false} RunPublishes(sys: System, events: seq<Event>)
    requires Run(sys, events)
    ensures Unstamped(Final(sys, events).published) == Unstamped(sys.published) + AllPublishedBy(events)
    decreases |events|
  {
    if events == [] {
      assert Unstamped(sys.published) + [] == Unstamped(sys.published);
    } else {
      HappenPublishes(sys, events[0]);
      RunPublishes(Happen(sys, events[0]), events[1..]);
      Assoc(Unstamped(sys.published), PublishedBy(events[0]), AllPublishedBy(events[1..]));
    }
  }
}
