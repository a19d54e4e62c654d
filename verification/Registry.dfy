/** The per-instance room registry: a nested map of rooms, each with its publishers and
    subscribers, kept in step with two flat sets of (room, user) pairs. */
module Registry {
  import opened Text

  /** `subs` maps a user to the handle of its command sender. */
  datatype Room = Room(subs: map<string, nat>, pubs: set<string>)

  type Rooms = map<string, Room>
  type Pair = (string, string)

  const EMPTY := Room(map[], {})

  /** `entry(room).or_default()`. */
  function At(rooms: Rooms, room: string): Room {
    if room in rooms then rooms[room] else EMPTY
  }

  /** Stores the room back, or drops it when nobody is left in it. */
  function Tidied(rooms: Rooms, room: string, r: Room): Rooms {
    if r.pubs == {} && r.subs == map[] then rooms - {room} else rooms[room := r]
  }

  // ---- the flat view

  function Pubs(rooms: Rooms): set<Pair> {
    set room, user | room in rooms && user in rooms[room].pubs :: (room, user)
  }

  function Subs(rooms: Rooms): set<Pair> {
    set room, user | room in rooms && user in rooms[room].subs :: (room, user)
  }

  /** No room without clients is stored. */
  ghost predicate Tidy(rooms: Rooms) {
    forall room :: room in rooms ==> !(rooms[room].pubs == {} && rooms[room].subs == map[])
  }

  datatype Op =
    | AddPublisher(room: string, user: string)
    | RemovePublisher(room: string, user: string)
    | AddSubscriber(room: string, user: string, sender: nat)
    | RemoveSubscriber(room: string, user: string)

  function Do(rooms: Rooms, op: Op): Rooms {
    var r := At(rooms, op.room);
    match op
    case AddPublisher(room, user) => rooms[room := r.(pubs := r.pubs + {user})]
    case RemovePublisher(room, user) => Tidied(rooms, room, r.(pubs := r.pubs - {user}))
    case AddSubscriber(room, user, sender) => rooms[room := r.(subs := r.subs[user := sender])]
    case RemoveSubscriber(room, user) => Tidied(rooms, room, r.(subs := r.subs - {user}))
  }

  datatype Flat = Flat(pubs: set<Pair>, subs: set<Pair>)

  function DoFlat(f: Flat, op: Op): Flat {
    match op
    case AddPublisher(room, user) => f.(pubs := f.pubs + {(room, user)})
    case RemovePublisher(room, user) => f.(pubs := f.pubs - {(room, user)})
    case AddSubscriber(room, user, _) => f.(subs := f.subs + {(room, user)})
    case RemoveSubscriber(room, user) => f.(subs := f.subs - {(room, user)})
  }

  function Flatten(rooms: Rooms): Flat {
    Flat(Pubs(rooms), Subs(rooms))
  }

  lemma InPubs(rooms: Rooms, room: string, user: string)
    ensures (room, user) in Pubs(rooms) <==> user in At(rooms, room).pubs
  {}

  lemma InSubs(rooms: Rooms, room: string, user: string)
    ensures (room, user) in Subs(rooms) <==> user in At(rooms, room).subs
  {}

  lemma DoAt(rooms: Rooms, op: Op, room: string)
    ensures At(Do(rooms, op), room) ==
            if room != op.room then At(rooms, room)
            else
              var r := At(rooms, room);
              match op
              case AddPublisher(_, user) => r.(pubs := r.pubs + {user})
              case RemovePublisher(_, user) => r.(pubs := r.pubs - {user})
              case AddSubscriber(_, user, sender) => r.(subs := r.subs[user := sender])
              case RemoveSubscriber(_, user) => r.(subs := r.subs - {user})
  {}

  lemma TidyKept(rooms: Rooms, op: Op)
    requires Tidy(rooms)
    ensures Tidy(Do(rooms, op))
  {
    match op
    case AddPublisher(room, user) => assert user in Do(rooms, op)[room].pubs;
    case AddSubscriber(room, user, _) => assert user in Do(rooms, op)[room].subs;
    case _ =>
  }

  lemma OpRefines(rooms: Rooms, op: Op)
    requires Tidy(rooms)
    ensures Tidy(Do(rooms, op))
    ensures Flatten(Do(rooms, op)) == DoFlat(Flatten(rooms), op)
  {
    forall p: Pair
      ensures p in Pubs(Do(rooms, op)) <==> p in DoFlat(Flatten(rooms), op).pubs
      ensures p in Subs(Do(rooms, op)) <==> p in DoFlat(Flatten(rooms), op).subs
    {
      InPubs(rooms, p.0, p.1);
      InPubs(Do(rooms, op), p.0, p.1);
      InSubs(rooms, p.0, p.1);
      InSubs(Do(rooms, op), p.0, p.1);
      DoAt(rooms, op, p.0);
    }
    TidyKept(rooms, op);
  }

  function DoAll(rooms: Rooms, ops: seq<Op>): Rooms
    decreases |ops|
  {
    if ops == [] then rooms else DoAll(Do(rooms, ops[0]), ops[1..])
  }

  function DoAllFlat(f: Flat, ops: seq<Op>): Flat
    decreases |ops|
  {
    if ops == [] then f else DoAllFlat(DoFlat(f, ops[0]), ops[1..])
  }

  /** Over all operation sequences the nested registry is the two flat sets. */
  lemma {:induction false} RegistryRefines(rooms: Rooms, ops: seq<Op>)
    requires Tidy(rooms)
    ensures Tidy(DoAll(rooms, ops))
    ensures Flatten(DoAll(rooms, ops)) == DoAllFlat(Flatten(rooms), ops)
    decreases |ops|
  {
    if ops != [] {
      OpRefines(rooms, ops[0]);
      RegistryRefines(Do(rooms, ops[0]), ops[1..]);
    }
  }

  /** The registry is empty exactly when both flat sets are. */
  lemma EmptyIffNoClients(rooms: Rooms)
    requires Tidy(rooms)
    ensures rooms != map[] <==> Pubs(rooms) != {} || Subs(rooms) != {}
  {
    if rooms != map[] {
      var room :| room in rooms;
      if rooms[room].pubs != {} {
        var user :| user in rooms[room].pubs;
        assert (room, user) in Pubs(rooms);
      } else {
        var user :| user in rooms[room].subs;
        assert (room, user) in Subs(rooms);
      }
    }
  }

  function OfRoom(pairs: set<Pair>, room: string): set<Pair> {
    set p | p in pairs && p.0 == room
  }

  lemma {:induction false} PairUp(users: set<string>, pairs: set<Pair>, room: string)
    requires forall p: Pair :: p in pairs <==> p.0 == room && p.1 in users
    ensures |users| == |pairs|
    decreases users
  {
    if users != {} {
      var user :| user in users;
      var rest := pairs - {(room, user)};
      assert (room, user) in pairs;
      PairUp(users - {user}, rest, room);
      assert |pairs| == |rest| + 1;
    } else {
      assert pairs == {};
    }
  }

  /** The per-room counts that the metrics report are the flat cardinalities. */
  lemma RoomCounts(rooms: Rooms, room: string)
    ensures |At(rooms, room).pubs| == |OfRoom(Pubs(rooms), room)|
    ensures |At(rooms, room).subs| == |OfRoom(Subs(rooms), room)|
  {
    PairUp(At(rooms, room).pubs, OfRoom(Pubs(rooms), room), room);
    PairUp(At(rooms, room).subs.Keys, OfRoom(Subs(rooms), room), room);
    assert |At(rooms, room).subs| == |At(rooms, room).subs.Keys|;
  }

  /** The `rooms` field of the instance's shared state. */
  class InternalState {
    var rooms: Rooms

    ghost predicate Valid()
      reads this
    {
      Tidy(rooms)
    }

    constructor ()
      ensures Valid() && rooms == map[]
    {
      rooms := map[];
    }

    method AddPub(room: string, user: string)
      requires Valid()
      modifies this
      ensures Valid() && rooms == Do(old(rooms), AddPublisher(room, user))
      ensures Flatten(rooms) == DoFlat(old(Flatten(rooms)), AddPublisher(room, user))
    {
      OpRefines(rooms, AddPublisher(room, user));
      if room !in rooms {
        rooms := rooms[room := EMPTY];
      }
      rooms := rooms[room := rooms[room].(pubs := rooms[room].pubs + {user})];
    }

    method RemovePub(room: string, user: string)
      requires Valid()
      modifies this
      ensures Valid() && rooms == Do(old(rooms), RemovePublisher(room, user))
      ensures Flatten(rooms) == DoFlat(old(Flatten(rooms)), RemovePublisher(room, user))
    {
      OpRefines(rooms, RemovePublisher(room, user));
      if room !in rooms {
        rooms := rooms[room := EMPTY];
      }
      rooms := rooms[room := rooms[room].(pubs := rooms[room].pubs - {user})];
      if rooms[room].pubs == {} && rooms[room].subs == map[] {
        rooms := rooms - {room};
      }
    }

    method AddSubNotify(room: string, user: string, sender: nat)
      requires Valid()
      modifies this
      ensures Valid() && rooms == Do(old(rooms), AddSubscriber(room, user, sender))
      ensures Flatten(rooms) == DoFlat(old(Flatten(rooms)), AddSubscriber(room, user, sender))
    {
      OpRefines(rooms, AddSubscriber(room, user, sender));
      if room !in rooms {
        rooms := rooms[room := EMPTY];
      }
      rooms := rooms[room := rooms[room].(subs := rooms[room].subs[user := sender])];
    }

    method RemoveSubNotify(room: string, user: string)
      requires Valid()
      modifies this
      ensures Valid() && rooms == Do(old(rooms), RemoveSubscriber(room, user))
      ensures Flatten(rooms) == DoFlat(old(Flatten(rooms)), RemoveSubscriber(room, user))
    {
      OpRefines(rooms, RemoveSubscriber(room, user));
      if room !in rooms {
        rooms := rooms[room := EMPTY];
      }
      rooms := rooms[room := rooms[room].(subs := rooms[room].subs - {user})];
      if rooms[room].pubs == {} && rooms[room].subs == map[] {
        rooms := rooms - {room};
      }
    }

    /** The senders a command of the room is forwarded to: each subscriber of the room once. */
    method ForwardTargets(room: string) returns (users: seq<string>, senders: seq<nat>)
      ensures |users| == |senders|
      ensures forall x, y :: 0 <= x < y < |users| ==> users[x] != users[y]
      ensures forall user :: user in users <==> (room, user) in Subs(rooms)
      ensures forall x :: 0 <= x < |users| ==> 
                users[x] in At(rooms, room).subs && senders[x] == At(rooms, room).subs[users[x]]
    {
      users, senders := [], [];
      if room !in rooms {
        return;
      }
      var subs := rooms[room].subs;
      var todo := subs.Keys;
      while todo != {}
        invariant todo <= subs.Keys && |users| == |senders|
        invariant forall x, y :: 0 <= x < y < |users| ==> users[x] != users[y]
        invariant forall user :: user in users <==> user in subs.Keys - todo
        invariant forall x :: 0 <= x < |users| ==> users[x] in subs && senders[x] == subs[users[x]]
        decreases todo
      {
        var user :| user in todo;
        assert user !in users;
        assert forall u :: u in users + [user] <==> u in users || u == user;
        todo := todo - {user};
        users, senders := users + [user], senders + [subs[user]];
      }
    }

    method HasPeers() returns (r: bool)
      requires Valid()
      ensures r <==> Pubs(rooms) != {} || Subs(rooms) != {}
    {
      EmptyIffNoClients(rooms);
      r := rooms != map[];
    }
  }
}
