/** The registries of the instances against the subscribers of the whole system: what an instance
    forwards a command to is what the system's fan-out sends to. */
module RegistryFan {
  import opened Renegotiation
  import GuardTheorems
  import opened RoomSystem
  import opened Registry

  /** The registry has sender `j` for this subscriber. */
  predicate Lists(rooms: Rooms, room: string, user: string, j: nat) {
    user in At(rooms, room).subs && At(rooms, room).subs[user] == j
  }

  predicate IsOnInstance(members: seq<Member>, instance: nat, room: string, user: string, j: nat) {
    IsTarget(members, instance, room, j) && members[j].sub.user == user
  }

  /** An instance's registry holds exactly its connected subscribers, each under its own room and user. */
  ghost predicate Mirrors(rooms: Rooms, members: seq<Member>, instance: nat) {
    forall room, user, j: nat :: Lists(rooms, room, user, j) <==> IsOnInstance(members, instance, room, user, j)
  }

  /** Whatever order the map is iterated in, the senders of a forwarded command are a fan-out of the room. */
  lemma TargetsAreFanOrder(rooms: Rooms, members: seq<Member>, instance: nat, room: string,
                           users: seq<string>, senders: seq<nat>)
    requires Mirrors(rooms, members, instance) && |users| == |senders|
    requires forall x, y :: 0 <= x < y < |users| ==> users[x] != users[y]
    requires forall user :: user in users <==> (room, user) in Subs(rooms)
    requires forall x :: 0 <= x < |users| ==>
               users[x] in At(rooms, room).subs && senders[x] == At(rooms, room).subs[users[x]]
    ensures IsFanOrder(members, instance, room, senders)
  {
    forall x | 0 <= x < |users| ensures IsOnInstance(members, instance, room, users[x], senders[x]) {
      assert Lists(rooms, room, users[x], senders[x]);
    }
    forall j: nat | IsTarget(members, instance, room, j) ensures j in senders {
      var user := members[j].sub.user;
      assert IsOnInstance(members, instance, room, user, j);
      assert Lists(rooms, room, user, j);
      InSubs(rooms, room, user);
      var x :| 0 <= x < |users| && users[x] == user;
      assert senders[x] == j;
    }
  }

  /** A subscriber that comes concerns the registry of its own instance only. */
  lemma RegisterMirrors(rooms: Rooms, members: seq<Member>, instance: nat, m: Member)
    requires Mirrors(rooms, members, instance) && m.presence.Present?
    requires forall j :: 0 <= j < |members| ==>
               !(members[j].sub.room == m.sub.room && members[j].sub.user == m.sub.user)
    ensures
      var op := AddSubscriber(m.sub.room, m.sub.user, |members|);
      Mirrors(if m.instance == instance then Registry.Do(rooms, op) else rooms, members + [m], instance)
  {
    var op := AddSubscriber(m.sub.room, m.sub.user, |members|);
    var after := if m.instance == instance then Registry.Do(rooms, op) else rooms;
    forall room, user, j: nat
      ensures Lists(after, room, user, j) <==> IsOnInstance(members + [m], instance, room, user, j)
    {
      assert Lists(rooms, room, user, j) <==> IsOnInstance(members, instance, room, user, j);
      if room == m.sub.room && user == m.sub.user {
        assert !IsOnInstance(members, instance, room, user, j);
      }
    }
  }

  lemma LeaveMirrors(rooms: Rooms, members: seq<Member>, instance: nat, k: nat)
    requires Mirrors(rooms, members, instance) && k < |members| && members[k].presence.Present?
    ensures
      var s := members[k].sub;
      var op := RemoveSubscriber(s.room, s.user);
      Mirrors(if members[k].instance == instance then Registry.Do(rooms, op) else rooms,
              members[k := members[k].(presence := Deregistered)], instance)
  {
    var s := members[k].sub;
    var op := RemoveSubscriber(s.room, s.user);
    var after := if members[k].instance == instance then Registry.Do(rooms, op) else rooms;
    var next := members[k := members[k].(presence := Deregistered)];
    forall room, user, j: nat
      ensures Lists(after, room, user, j) <==> IsOnInstance(next, instance, room, user, j)
    {
      assert Lists(rooms, room, user, j) <==> IsOnInstance(members, instance, room, user, j);
      assert Lists(rooms, room, user, k) <==> IsOnInstance(members, instance, room, user, k);
    }
  }

  // ---- over the runs of the whole system

  /** What an event of the system does to the registry of one instance. */
  function RegistryAfter(rooms: Rooms, members: seq<Member>, instance: nat, e: Event): Rooms {
    match e
    case Register(n, sub) =>
      if n == instance then Registry.Do(rooms, AddSubscriber(sub.room, sub.user, |members|)) else rooms
    case Leave(j) =>
      if j < |members| && members[j].instance == instance
      then Registry.Do(rooms, RemoveSubscriber(members[j].sub.room, members[j].sub.user))
      else rooms
    case _ => rooms
  }

  lemma SamePlacesMirror(rooms: Rooms, members: seq<Member>, next: seq<Member>, instance: nat)
    requires Mirrors(rooms, members, instance) && |next| == |members|
    requires forall j :: 0 <= j < |members| ==>
               && next[j].instance == members[j].instance && next[j].sub.room == members[j].sub.room
               && next[j].sub.user == members[j].sub.user
               && (next[j].presence.Present? <==> members[j].presence.Present?)
    ensures Mirrors(rooms, next, instance)
  {
    forall room, user, j: nat
      ensures Lists(rooms, room, user, j) <==> IsOnInstance(next, instance, room, user, j)
    {
      assert Lists(rooms, room, user, j) <==> IsOnInstance(members, instance, room, user, j);
      assert IsOnInstance(next, instance, room, user, j) <==> IsOnInstance(members, instance, room, user, j);
    }
  }

  lemma KeepsCount(sys: System, e: Event)
    requires CanHappen(sys, e) && !e.Register?
    ensures |Happen(sys, e).members| == |sys.members|
  {}

  lemma OthersKeepPlaces(sys: System, e: Event, j: nat)
    requires CanHappen(sys, e) && !e.Register? && !e.Leave? && j < |sys.members|
    ensures
      var m, n := sys.members[j], Happen(sys, e).members;
      && |n| == |sys.members| && n[j].instance == m.instance && GuardTheorems.Same(m.sub, n[j].sub)
      && (n[j].presence.Present? <==> m.presence.Present?)
  {
    if e.Act? {
      GuardTheorems.StepSame(sys.members[e.j].sub, e.act);
    }
  }

  lemma HappenMirrors(sys: System, e: Event, rooms: Rooms, instance: nat)
    requires CanHappen(sys, e) && Mirrors(rooms, sys.members, instance)
    ensures Mirrors(RegistryAfter(rooms, sys.members, instance, e), Happen(sys, e).members, instance)
  {
    if e.Register? {
      RegisterMirrors(rooms, sys.members, instance, Member(e.instance, e.sub, [], Present));
    } else if e.Leave? {
      LeaveMirrors(rooms, sys.members, instance, e.j);
    } else {
      forall j | 0 <= j < |sys.members|
        ensures
          var m, n := sys.members[j], Happen(sys, e).members;
          && |n| == |sys.members| && n[j].instance == m.instance && GuardTheorems.Same(m.sub, n[j].sub)
          && (n[j].presence.Present? <==> m.presence.Present?)
      {
        OthersKeepPlaces(sys, e, j);
      }
      KeepsCount(sys, e);
      SamePlacesMirror(rooms, sys.members, Happen(sys, e).members, instance);
    }
  }

  ghost function RegistryOf(rooms: Rooms, sys: System, events: seq<Event>, instance: nat): Rooms
    requires Run(sys, events)
    decreases |events|
  {
    if events == [] then rooms
    else
      var next := RegistryAfter(rooms, sys.members, instance, events[0]);
      RegistryOf(next, Happen(sys, events[0]), events[1..], instance)
  }

  /** On every run the registry of every instance holds exactly its connected subscribers. */
  lemma {:induction false} RunMirrors(rooms: Rooms, sys: System, events: seq<Event>, instance: nat)
    requires Run(sys, events) && Mirrors(rooms, sys.members, instance)
    ensures Mirrors(RegistryOf(rooms, sys, events, instance), Final(sys, events).members, instance)
    decreases |events|
  {
    if events != [] {
      HappenMirrors(sys, events[0], rooms, instance);
      var next := RegistryAfter(rooms, sys.members, instance, events[0]);
      RunMirrors(next, Happen(sys, events[0]), events[1..], instance);
    }
  }
}
