/** The whole system: publishers on any instance change the shared media tables and
    publish commands; the bus delivers each command to every instance in any order;
    each instance fans it out to the bounded queues of the room's subscribers. */
module RoomSystem {
  import opened Text
  import opened Commands
  import opened Bus
  import opened Naming
  import opened MediaTable
  import opened Reconciliation
  import opened Renegotiation

  /** A full id in a room; it belongs to one connection. */
  datatype PubId = PubId(room: string, user: string)

  /** The closing task of a publisher connection. */
  datatype Closing =
    | Up
    | Latched     // is_closed is set
    | VideoGone   // the video row is deleted
    | MediaGone   // both rows are deleted
    | Left        // PubLeft is published

  /** `midTrack`: on_track has bumped the counts and not yet tested whether all tracks are there.
      `owes`: the table changed since the last command this publisher published. */
  datatype Publisher = Publisher(midTrack: bool, closing: Closing, owes: bool)

  /** A command on its way: on the bus towards one instance, or in an instance's fan-out, which
      sends to the members in `rest` one after the other. */
  datatype Transit =
    | Delivery(instance: nat, cmd: Cmd)
    | Fan(cmd: Cmd, rest: seq<nat>)

  /** Closing a subscriber's connection deregisters it; its command loop ends, and closes the queue,
      only when it is at its select. */
  datatype Presence = Present | Deregistered | Closed

  /** A subscriber, the instance it is connected to, and all commands ever put into its queue. */
  datatype Member = Member(instance: nat, sub: Subscriber, got: seq<Cmd>, presence: Presence)

  /** `transit` is a bag: any of its elements may move next. */
  datatype System = System(
    instances: nat,
    log: seq<Change>,
    pubs: map<PubId, Publisher>,
    members: seq<Member>,
    transit: seq<Transit>,
    published: seq<Cmd>)

  datatype Event =
    | Connect(id: PubId)
    | Track(id: PubId, kind: string)       // counters and HINCRBY of one on_track callback
    | Ready(id: PubId, all: bool)          // its test against the number of transceivers
    | Report(id: PubId)                    // Failed, Disconnected or Closed; any number of times
    | RemoveVideo(id: PubId)
    | RemoveAudio(id: PubId)
    | AnnounceLeft(id: PubId)
    | Register(instance: nat, sub: Subscriber)
    | Deliver(i: nat, order: seq<nat>)
    | Leave(j: nat)
    | EndLoop(j: nat)
    | Push(i: nat)
    | Bounce(i: nat)                       // the queue is closed; the error is only logged
    | Retire(i: nat)
    | Act(j: nat, act: Renegotiation.Act)

  predicate IsPublisherEvent(e: Event) {
    e.Connect? || e.Track? || e.Ready? || e.Report? || e.RemoveVideo? || e.RemoveAudio? || e.AnnounceLeft?
  }

  predicate IsTransitEvent(e: Event) {
    e.Deliver? || e.Push? || e.Bounce? || e.Retire?
  }

  // ---- steps

  function Deliveries(n: nat, cmd: Cmd): (r: seq<Transit>)
    ensures |r| == n && forall i :: 0 <= i < n ==> r[i] == Delivery(i, cmd)
  {
    seq(n, (i: nat) => Delivery(i, cmd))
  }

  /** What a call of `send_command` puts on the bus: a copy for every instance if the command is heard. */
  function Sent(n: nat, room: string, c: Command, stamp: nat): seq<Transit> {
    match Heard(room, c)
    case None => []
    case Some((to, heard)) => Deliveries(n, Cmd(heard, to, stamp))
  }

  lemma SentExactly(n: nat, room: string, c: Command, stamp: nat)
    ensures Sent(n, room, c, stamp) == if WellNamed(room, c.user) then Deliveries(n, Cmd(c, room, stamp)) else []
  {
    HeardExactly(room, c);
  }

  /** The publisher calls `send_command` and has done its part, whether or not anything was sent. */
  function Publish(sys: System, payload: Command, id: PubId): System
    requires id in sys.pubs
  {
    sys.(transit := sys.transit + Sent(sys.instances, id.room, payload, |sys.log|),
         published := sys.published + [Cmd(payload, id.room, |sys.log|)],
         pubs := sys.pubs[id := sys.pubs[id].(owes := false)])
  }

  function Change1(sys: System, id: PubId, pub: Publisher, c: Change): System {
    sys.(log := sys.log + [c], pubs := sys.pubs[id := pub.(owes := true)])
  }

  function RemoveAt<T>(q: seq<T>, i: nat): seq<T>
    requires i < |q|
  {
    q[..i] + q[i + 1..]
  }

  predicate NoDuplicates(q: seq<nat>) {
    forall x, y :: 0 <= x < y < |q| ==> q[x] != q[y]
  }

  predicate IsTarget(members: seq<Member>, instance: nat, room: string, j: nat) {
    j < |members| && members[j].presence.Present? && members[j].instance == instance && members[j].sub.room == room
  }

  /** `order` lists the room's subscribers on this instance, in the map's iteration order. */
  ghost predicate IsFanOrder(members: seq<Member>, instance: nat, room: string, order: seq<nat>) {
    && NoDuplicates(order)
    && (forall j: nat :: j in order <==> IsTarget(members, instance, room, j))
  }

  /** A table read returns the room's table as it is now, if it can be read. */
  ghost predicate ReadsNow(sys: System, room: string, a: Renegotiation.Act) {
    match a
    case ByLoop(Read(m, at)) => m == Replay(sys.log, room) && at == |sys.log| && Readable(m)
    case ByHandler(AnsRead(m, at)) => m == Replay(sys.log, room) && at == |sys.log| && Readable(m)
    case _ => true
  }

  ghost predicate Fresh(sys: System, s: Subscriber) {
    forall j :: 0 <= j < |sys.members| ==>
      !(sys.members[j].sub.room == s.room && sys.members[j].sub.user == s.user)
  }

  /** The fan-out at `i` has a next subscriber to send to. */
  predicate CanSend(sys: System, i: nat) {
    && i < |sys.transit| && sys.transit[i].Fan? && sys.transit[i].rest != []
    && sys.transit[i].rest[0] < |sys.members|
  }

  ghost predicate CanHappen(sys: System, e: Event) {
    match e
    case Connect(id) => id !in sys.pubs && '#' !in id.user
    case Track(id, kind) => id in sys.pubs && !sys.pubs[id].midTrack && IsKind(kind)
    case Ready(id, _) => id in sys.pubs && sys.pubs[id].midTrack
    case Report(id) => id in sys.pubs
    case RemoveVideo(id) => id in sys.pubs && sys.pubs[id].closing == Latched
    case RemoveAudio(id) => id in sys.pubs && sys.pubs[id].closing == VideoGone
    case AnnounceLeft(id) => id in sys.pubs && sys.pubs[id].closing == MediaGone
    case Register(instance, sub) => instance < sys.instances && Init(sub) && Fresh(sys, sub)
    case Deliver(i, order) =>
      && i < |sys.transit| && sys.transit[i].Delivery?
      && IsFanOrder(sys.members, sys.transit[i].instance, sys.transit[i].cmd.room, order)
    case Leave(j) => j < |sys.members| && sys.members[j].presence.Present?
    case EndLoop(j) =>
      && j < |sys.members| && sys.members[j].presence.Deregistered?
      && (sys.members[j].sub.loop.Receiving? || sys.members[j].sub.loop.NotOpen?)
    case Bounce(i) => CanSend(sys, i) && sys.members[sys.transit[i].rest[0]].presence.Closed?
    case Push(i) =>
      && CanSend(sys, i) && !sys.members[sys.transit[i].rest[0]].presence.Closed?
      && |sys.members[sys.transit[i].rest[0]].sub.queue| < CAPACITY
    case Retire(i) => i < |sys.transit| && sys.transit[i].Fan? && sys.transit[i].rest == []
    case Act(j, a) =>
      && j < |sys.members| && !sys.members[j].presence.Closed? && !a.Enqueue?
      && Enabled(sys.members[j].sub, a) && Outcome(sys.members[j].sub, a)
      && ReadsNow(sys, sys.members[j].sub.room, a)
  }

  ghost function Happen(sys: System, e: Event): System
    requires CanHappen(sys, e)
  {
    match e
    case Connect(id) => sys.(pubs := sys.pubs[id := Publisher(false, Up, false)])
    case Track(id, kind) =>
      Change1(sys, id, sys.pubs[id].(midTrack := true), Increment(id.room, id.user, kind))
    case Ready(id, all) =>
      var done := sys.(pubs := sys.pubs[id := sys.pubs[id].(midTrack := false)]);
      if all then Publish(done, PubJoin(id.user), id) else done
    case Report(id) =>
      if sys.pubs[id].closing != Up then sys
      else sys.(pubs := sys.pubs[id := sys.pubs[id].(closing := Latched)])
    case RemoveVideo(id) =>
      Change1(sys, id, sys.pubs[id].(closing := VideoGone), Delete(id.room, id.user, VIDEO))
    case RemoveAudio(id) =>
      Change1(sys, id, sys.pubs[id].(closing := MediaGone), Delete(id.room, id.user, AUDIO))
    case AnnounceLeft(id) =>
      Publish(sys.(pubs := sys.pubs[id := sys.pubs[id].(closing := Left)]), PubLeft(id.user), id)
    case Register(instance, sub) => sys.(members := sys.members + [Member(instance, sub, [], Present)])
    case Deliver(i, order) => sys.(transit := sys.transit[i := Fan(sys.transit[i].cmd, order)])
    case Leave(j) => sys.(members := sys.members[j := sys.members[j].(presence := Deregistered)])
    case EndLoop(j) => sys.(members := sys.members[j := sys.members[j].(presence := Closed)])
    case Bounce(i) =>
      var t := sys.transit[i];
      sys.(transit := sys.transit[i := Fan(t.cmd, t.rest[1..])])
    case Push(i) =>
      var t := sys.transit[i];
      var m := sys.members[t.rest[0]];
      sys.(transit := sys.transit[i := Fan(t.cmd, t.rest[1..])],
           members := sys.members[t.rest[0] := m.(sub := Step(m.sub, Enqueue(t.cmd)), got := m.got + [t.cmd])])
    case Retire(i) => sys.(transit := RemoveAt(sys.transit, i))
    case Act(j, a) =>
      sys.(members := sys.members[j := sys.members[j].(sub := Step(sys.members[j].sub, a))])
  }

  ghost predicate Start(sys: System) {
    sys.log == [] && sys.pubs == map[] && sys.members == [] && sys.transit == [] && sys.published == []
  }

  ghost predicate Run(sys: System, events: seq<Event>)
    decreases |events|
  {
    events == [] || (CanHappen(sys, events[0]) && Run(Happen(sys, events[0]), events[1..]))
  }

  ghost function Final(sys: System, events: seq<Event>): System
    requires Run(sys, events)
    decreases |events|
  {
    if events == [] then sys else Final(Happen(sys, events[0]), events[1..])
  }

  // ---- the structural invariant

  ghost predicate MemberOk(log: seq<Change>, instances: nat, m: Member) {
    && m.instance < instances
    && Inv(m.sub)
    && m.sub.appliedAt <= m.sub.readAt <= |log|
    && (m.sub.loop.Applying? ==> m.sub.loop.media == Replay(log[..m.sub.readAt], m.sub.room))
    && (m.sub.handler.AnsApplying? ==> m.sub.handler.media == Replay(log[..m.sub.readAt], m.sub.room))
  }

  ghost predicate TransitOk(members: seq<Member>, t: Transit) {
    t.Fan? ==> forall j :: j in t.rest ==> j < |members| && members[j].sub.room == t.cmd.room
  }

  ghost predicate Ok(sys: System) {
    && KnownKinds(sys.log)
    && (forall j :: 0 <= j < |sys.members| ==> MemberOk(sys.log, sys.instances, sys.members[j]))
    && (forall t :: t in sys.transit ==> TransitOk(sys.members, t))
  }

  /** The members of `next` are those of `prev` in the same places, possibly with new ones. */
  ghost predicate SamePlaces(prev: seq<Member>, next: seq<Member>) {
    && |prev| <= |next|
    && forall j :: 0 <= j < |prev| ==>
         next[j].instance == prev[j].instance && next[j].sub.room == prev[j].sub.room &&
         next[j].sub.user == prev[j].sub.user
  }

  lemma LogGrows(log: seq<Change>, c: Change, instances: nat, m: Member)
    requires MemberOk(log, instances, m)
    ensures MemberOk(log + [c], instances, m)
  {
    assert (log + [c])[..m.sub.readAt] == log[..m.sub.readAt];
  }

  lemma TransitStaysOk(prev: seq<Member>, next: seq<Member>, t: Transit)
    requires TransitOk(prev, t) && SamePlaces(prev, next)
    ensures TransitOk(next, t)
  {}
}
