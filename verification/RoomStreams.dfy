/** What a settled room shows: every connected subscriber forwards exactly the streams that the
    connected publishers send. */
module RoomStreams {
  import opened Text
  import opened Naming
  import opened MediaTable
  import opened Reconciliation
  import opened Renegotiation
  import opened GuardTheorems
  import opened RoomSystem
  import opened RoomInvariant
  import opened NoLostUpdate
  import opened Convergence
  import opened Departures
  import PublisherTracks

  predicate IsTrackOf(c: Change, id: PubId) {
    c.Increment? && c.room == id.room && c.user == id.user
  }

  predicate IsRemovalOf(c: Change, id: PubId) {
    c.Delete? && c.room == id.room && c.user == id.user
  }

  /** The kinds of the tracks a connection brought, in order. */
  function KindsOf(log: seq<Change>, id: PubId): seq<string> {
    if log == [] then []
    else
      var before := KindsOf(log[..|log| - 1], id);
      var c := log[|log| - 1];
      if IsTrackOf(c, id) then before + [c.kind] else before
  }

  lemma {:induction false} KindsAreKnown(log: seq<Change>, id: PubId)
    requires KnownKinds(log)
    ensures PublisherTracks.AllKinds(KindsOf(log, id))
  {
    if log != [] {
      KindsAreKnown(log[..|log| - 1], id);
    }
  }

  /** While nothing of a connection is deleted, the table counts its tracks. */
  lemma {:induction false} RowCounts(log: seq<Change>, id: PubId, kind: string)
    requires forall i :: 0 <= i < |log| ==> !IsRemovalOf(log[i], id)
    ensures
      var m, n := Replay(log, id.room), PublisherTracks.Count(KindsOf(log, id), kind);
      if n > 0 then Row(id.user, kind) in m && m[Row(id.user, kind)] == n else Row(id.user, kind) !in m
  {
    if log != [] {
      var before, c := log[..|log| - 1], log[|log| - 1];
      RowCounts(before, id, kind);
      if IsTrackOf(c, id) {
        PublisherTracks.CountStep(KindsOf(before, id), c.kind, kind);
      }
    }
  }

  /** Removals or not, a row never counts more than was brought. */
  lemma {:induction false} RowsAtMostBrought(log: seq<Change>, id: PubId, kind: string)
    ensures
      var m := Replay(log, id.room);
      Row(id.user, kind) in m ==> m[Row(id.user, kind)] <= PublisherTracks.Count(KindsOf(log, id), kind)
  {
    if log != [] {
      var before, c := log[..|log| - 1], log[|log| - 1];
      RowsAtMostBrought(before, id, kind);
      if IsTrackOf(c, id) {
        PublisherTracks.CountStep(KindsOf(before, id), c.kind, kind);
      }
    }
  }

  /** A room whose connections brought at most 255 tracks of a kind each can always be read. */
  lemma RoomIsReadable(log: seq<Change>, room: string)
    requires KnownKinds(log)
    requires forall user: string :: PublisherTracks.AtMost(KindsOf(log, PubId(room, user)), 255)
    ensures Readable(Replay(log, room))
  {
    ReplayWellFormed(log, room);
    forall row | row in Replay(log, room) ensures Replay(log, room)[row] < 256 {
      RowsAtMostBrought(log, PubId(room, row.user), row.kind);
      assert PublisherTracks.AtMost(KindsOf(log, PubId(room, row.user)), 255);
    }
  }

  // ---- who is in the log

  ghost predicate OwnersKnown(sys: System) {
    forall i :: 0 <= i < |sys.log| ==> PubId(sys.log[i].room, sys.log[i].user) in sys.pubs
  }

  lemma HappenKeepsOwners(sys: System, e: Event)
    requires CanHappen(sys, e) && OwnersKnown(sys)
    ensures OwnersKnown(Happen(sys, e))
  {
    if !IsPublisherEvent(e) {
      DeliveryPublishesNothing(sys, e);
    }
  }

  lemma {:induction false} RunKeepsOwners(sys: System, events: seq<Event>)
    requires Run(sys, events) && OwnersKnown(sys)
    ensures OwnersKnown(Final(sys, events))
    decreases |events|
  {
    if events != [] {
      HappenKeepsOwners(sys, events[0]);
      RunKeepsOwners(Happen(sys, events[0]), events[1..]);
    }
  }

  lemma {:induction false} RowHasOwner(log: seq<Change>, room: string, row: Row)
    requires row in Replay(log, room)
    ensures exists i :: 0 <= i < |log| && log[i].room == room && log[i].user == row.user
  {
    var before, c := log[..|log| - 1], log[|log| - 1];
    if row in Replay(before, room) {
      RowHasOwner(before, room, row);
      var i :| 0 <= i < |before| && before[i].room == room && before[i].user == row.user;
      assert log[i] == before[i];
    } else {
      assert log[|log| - 1].room == room && log[|log| - 1].user == row.user;
    }
  }

  // ---- what a run brought, by its events alone

  /** The kinds of the tracks that arrived on a connection, in order. */
  function TracksIn(events: seq<Event>, id: PubId): seq<string> {
    if events == [] then []
    else (if events[0].Track? && events[0].id == id then [events[0].kind] else []) + TracksIn(events[1..], id)
  }

  predicate Connected(events: seq<Event>, id: PubId) {
    Event.Connect(id) in events
  }

  predicate Gone(events: seq<Event>, id: PubId) {
    AnnounceLeft(id) in events
  }

  lemma KindsStep(log: seq<Change>, c: Change, id: PubId)
    ensures KindsOf(log + [c], id) == KindsOf(log, id) + if IsTrackOf(c, id) then [c.kind] else []
  {
    assert (log + [c])[..|log|] == log;
  }

  /** The log gains exactly the track that arrived, under its own kind. */
  lemma HappenKinds(sys: System, e: Event, id: PubId)
    requires CanHappen(sys, e)
    ensures KindsOf(Happen(sys, e).log, id) ==
            KindsOf(sys.log, id) + if e.Track? && e.id == id then [e.kind] else []
  {
    if !IsPublisherEvent(e) {
      DeliveryPublishesNothing(sys, e);
    } else {
      match e
      case Track(who, kind) => KindsStep(sys.log, Increment(who.room, who.user, kind), id);
      case RemoveVideo(who) => KindsStep(sys.log, Delete(who.room, who.user, VIDEO), id);
      case RemoveAudio(who) => KindsStep(sys.log, Delete(who.room, who.user, AUDIO), id);
      case _ =>
    }
  }

  /** The table's history holds exactly the tracks that arrived, in order and of their own kinds. */
  lemma {:induction false} RunKinds(sys: System, events: seq<Event>, id: PubId)
    requires Run(sys, events)
    ensures KindsOf(Final(sys, events).log, id) == KindsOf(sys.log, id) + TracksIn(events, id)
    decreases |events|
  {
    if events == [] {
      assert KindsOf(sys.log, id) + [] == KindsOf(sys.log, id);
    } else {
      var e := events[0];
      HappenKinds(sys, e, id);
      RunKinds(Happen(sys, e), events[1..], id);
      var k := if e.Track? && e.id == id then [e.kind] else [];
      Assoc(KindsOf(sys.log, id), k, TracksIn(events[1..], id));
    }
  }

  lemma KindsBrought(start: System, events: seq<Event>, id: PubId)
    requires Start(start) && Run(start, events)
    ensures KindsOf(Final(start, events).log, id) == TracksIn(events, id)
  {
    RunKinds(start, events, id);
    assert [] + TracksIn(events, id) == TracksIn(events, id);
  }

  lemma HappenPresence(sys: System, e: Event, id: PubId)
    requires CanHappen(sys, e)
    ensures id in Happen(sys, e).pubs <==> id in sys.pubs || e == Event.Connect(id)
    ensures HasLeft(Happen(sys, e), id) <==> HasLeft(sys, id) || e == AnnounceLeft(id)
  {
    if IsPublisherEvent(e) {
      OnlyAnnouncingLeaves(sys, e, id);
    } else {
      DeliveryPublishesNothing(sys, e);
    }
  }

  lemma {:induction false} RunPresence(sys: System, events: seq<Event>, id: PubId)
    requires Run(sys, events)
    ensures id in Final(sys, events).pubs <==> id in sys.pubs || Connected(events, id)
    ensures HasLeft(Final(sys, events), id) <==> HasLeft(sys, id) || Gone(events, id)
    decreases |events|
  {
    if events != [] {
      HappenPresence(sys, events[0], id);
      RunPresence(Happen(sys, events[0]), events[1..], id);
      assert events == [events[0]] + events[1..];
    }
  }

  // ---- the streams of a room

  /** No publisher is in the middle of leaving: its rows are all there, or all gone. */
  predicate NobodyHalfway(sys: System) {
    forall id :: id in sys.pubs ==> sys.pubs[id].closing != VideoGone && sys.pubs[id].closing != MediaGone
  }

  ghost predicate NoneWrapped(sys: System) {
    forall id :: id in sys.pubs ==> PublisherTracks.AtMost(KindsOf(sys.log, id), 256)
  }

  predicate IsShown(sys: System, s: Subscriber, id: PubId) {
    id in sys.pubs && sys.pubs[id].closing != Left && id.room == s.room && !IsEcho(id.user, s.user)
  }

  /** The streams that the connected publishers of the room send, other than the subscriber's own. */
  ghost function Streams(sys: System, s: Subscriber): set<Key> {
    set id, k | id in sys.pubs && IsShown(sys, s, id) && k in PublisherTracks.Sent(id.user, KindsOf(sys.log, id)) :: k
  }

  ghost predicate History(sys: System) {
    && KnownKinds(sys.log) && OwnersKnown(sys) && DeletesAreFinal(sys)
    && forall id: PubId :: RowsGone(sys, id)
  }

  lemma NothingRemoved(sys: System, id: PubId)
    requires History(sys) && id in sys.pubs && (sys.pubs[id].closing == Up || sys.pubs[id].closing == Latched)
    ensures forall i :: 0 <= i < |sys.log| ==> !IsRemovalOf(sys.log[i], id)
  {
    assert forall i :: 0 <= i < |sys.log| && IsRemovalOf(sys.log[i], id) ==>
      PubId(sys.log[i].room, sys.log[i].user) == id;
  }

  lemma ExpectedIsStreamed(sys: System, s: Subscriber, row: Row, i: nat)
    requires History(sys) && NobodyHalfway(sys) && NoneWrapped(sys)
    requires row in Replay(sys.log, s.room) && !IsEcho(row.user, s.user) && i < Replay(sys.log, s.room)[row]
    ensures Key(row.user, Label(row.kind, i)) in Streams(sys, s)
  {
    var id := PubId(s.room, row.user);
    RowHasOwner(sys.log, s.room, row);
    ReplayWellFormed(sys.log, s.room);
    assert RowsGone(sys, id);
    assert id in sys.pubs && sys.pubs[id].closing != Left;
    NothingRemoved(sys, id);
    RowCounts(sys.log, id, row.kind);
    assert PublisherTracks.AtMost(KindsOf(sys.log, id), 256);
    PublisherTracks.LabelIsSent(id.user, KindsOf(sys.log, id), row.kind, i);
    assert IsShown(sys, s, id);
  }

  lemma AtMostItself(j: nat)
    ensures j % 256 <= j
  {}

  lemma StreamIsExpected(sys: System, s: Subscriber, id: PubId, k: Key)
    requires History(sys) && NobodyHalfway(sys) && IsShown(sys, s, id)
    requires k in PublisherTracks.Sent(id.user, KindsOf(sys.log, id))
    ensures k in Expected(Replay(sys.log, s.room), s.user)
  {
    var kinds := KindsOf(sys.log, id);
    var i :| 0 <= i < |kinds| && k == Key(id.user, PublisherTracks.Minted(kinds)[i]);
    var j := PublisherTracks.MintedIsLabel(kinds, i);
    NothingRemoved(sys, id);
    RowCounts(sys.log, id, kinds[i]);
    KindsAreKnown(sys.log, id);
    ReplayWellFormed(sys.log, s.room);
    AtMostItself(j);
    var row := Row(id.user, kinds[i]);
    assert row in Replay(sys.log, s.room) && j % 256 < Replay(sys.log, s.room)[row];
    ExpectedIndex(Replay(sys.log, s.room), s.user, row, j % 256);
  }

  lemma StreamsAreExpected(sys: System, s: Subscriber)
    requires History(sys) && NobodyHalfway(sys) && NoneWrapped(sys)
    ensures Streams(sys, s) == Expected(Replay(sys.log, s.room), s.user)
  {
    var m := Replay(sys.log, s.room);
    forall row, i | row in m && !IsEcho(row.user, s.user) && 0 <= i < m[row]
      ensures Key(row.user, Label(row.kind, i)) in Streams(sys, s)
    {
      ExpectedIsStreamed(sys, s, row, i);
    }
    forall id, k | id in sys.pubs && IsShown(sys, s, id) && k in PublisherTracks.Sent(id.user, KindsOf(sys.log, id))
      ensures k in Expected(m, s.user)
    {
      StreamIsExpected(sys, s, id, k);
    }
  }

  lemma RunHasHistory(start: System, events: seq<Event>)
    requires Start(start) && Run(start, events) && AllPrompt(start, events)
    ensures History(Final(start, events)) && NoReuse(Final(start, events).log)
  {
    RunKeepsOk(start, events);
    RunKeepsOwners(start, events);
    PromptRunsDoNotReuse(start, events);
    forall id: PubId ensures RowsGone(Final(start, events), id) {
      DepartedAreForgotten(start, events, id);
    }
  }

  /** The streams sent by those who connected and have not left, other than the subscriber's own: under the labels
      their counters minted for the tracks that arrived. */
  ghost function StreamsSent(events: seq<Event>, s: Subscriber): set<Key> {
    set e, k | e in events && e.Connect? && !Gone(events, e.id) && e.id.room == s.room && !IsEcho(e.id.user, s.user)
               && k in PublisherTracks.Sent(e.id.user, TracksIn(events, e.id)) :: k
  }

  lemma ShownHasConnected(start: System, events: seq<Event>, s: Subscriber, id: PubId)
    requires Start(start) && Run(start, events)
    ensures IsShown(Final(start, events), s, id) <==>
            Connected(events, id) && !Gone(events, id) && id.room == s.room && !IsEcho(id.user, s.user)
  {
    RunPresence(start, events, id);
  }

  lemma StreamsAreSent(start: System, events: seq<Event>, s: Subscriber)
    requires Start(start) && Run(start, events)
    ensures Streams(Final(start, events), s) == StreamsSent(events, s)
  {
    var sys := Final(start, events);
    forall id, k | id in sys.pubs && IsShown(sys, s, id) && k in PublisherTracks.Sent(id.user, KindsOf(sys.log, id))
      ensures k in StreamsSent(events, s)
    {
      KindsBrought(start, events, id);
      ShownHasConnected(start, events, s, id);
      var e := Event.Connect(id);
      assert e in events && e.Connect? && e.id == id;
    }
    forall e, k | e in events && e.Connect? && !Gone(events, e.id) && e.id.room == s.room && !IsEcho(e.id.user, s.user)
                  && k in PublisherTracks.Sent(e.id.user, TracksIn(events, e.id))
      ensures k in Streams(sys, s)
    {
      KindsBrought(start, events, e.id);
      assert e == Event.Connect(e.id);
      ShownHasConnected(start, events, s, e.id);
    }
  }

  /** No 8-bit counter of a connection went round. */
  ghost predicate CountersHold(events: seq<Event>) {
    forall id: PubId :: PublisherTracks.AtMost(TracksIn(events, id), 256)
  }

  /** End to end: when everybody has announced everything and nobody is halfway through leaving, a quiet
      subscriber forwards exactly the streams that the connected publishers of its room send. */
  lemma RoomIsShown(start: System, events: seq<Event>, j: nat)
    requires Start(start) && Run(start, events) && AllPrompt(start, events)
    requires j < |Final(start, events).members| && Final(start, events).members[j].presence.Present?
    requires Settled(Final(start, events)) && Final(start, events).transit == []
    requires Quiet(Final(start, events).members[j].sub) && Unharmed(Final(start, events).members[j].sub)
    requires AllAnnounceable(Final(start, events), Final(start, events).members[j].sub)
    requires NobodyHalfway(Final(start, events)) && CountersHold(events)
    ensures
      var s := Final(start, events).members[j].sub;
      s.tracks == StreamsSent(events, s)
  {
    RunHasHistory(start, events);
    forall id | id in Final(start, events).pubs
      ensures PublisherTracks.AtMost(KindsOf(Final(start, events).log, id), 256)
    {
      KindsBrought(start, events, id);
    }
    StreamsAreSent(start, events, Final(start, events).members[j].sub);
    Converges(start, events, j);
    StreamsAreExpected(Final(start, events), Final(start, events).members[j].sub);
  }
}
