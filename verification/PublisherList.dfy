/** The room's publisher list in Redis against the local publisher sets of the instances:
    each addition and removal is two steps, Redis first. */
module PublisherList {

  datatype Phase = Adding | Removing

  /** One room. `local` holds (instance, user) pairs; `busy` the half-done operations. */
  datatype Lists = Lists(redis: set<string>, local: set<(nat, string)>, busy: map<string, (nat, Phase)>)

  datatype Step =
    | AddRemote(instance: nat, user: string)      // SADD
    | AddLocal(user: string)
    | RemoveRemote(instance: nat, user: string)   // SREM
    | RemoveLocal(user: string)

  /** A full id lives on one instance at a time. */
  ghost predicate OnlyOn(l: Lists, instance: nat, user: string) {
    forall n :: (n, user) in l.local ==> n == instance
  }

  ghost predicate Enabled(l: Lists, s: Step) {
    match s
    case AddRemote(instance, user) => user !in l.busy && OnlyOn(l, instance, user)
    case AddLocal(user) => user in l.busy && l.busy[user].1 == Adding
    case RemoveRemote(instance, user) => user !in l.busy && OnlyOn(l, instance, user)
    case RemoveLocal(user) => user in l.busy && l.busy[user].1 == Removing
  }

  function Next(l: Lists, s: Step): Lists {
    match s
    case AddRemote(instance, user) =>
      l.(redis := l.redis + {user}, busy := l.busy[user := (instance, Adding)])
    case AddLocal(user) =>
      if user !in l.busy then l
      else l.(local := l.local + {(l.busy[user].0, user)}, busy := l.busy - {user})
    case RemoveRemote(instance, user) =>
      l.(redis := l.redis - {user}, busy := l.busy[user := (instance, Removing)])
    case RemoveLocal(user) =>
      if user !in l.busy then l
      else l.(local := l.local - {(l.busy[user].0, user)}, busy := l.busy - {user})
  }

  ghost predicate Local(l: Lists, user: string) {
    exists n :: (n, user) in l.local
  }

  /** Redis lists the union of the local sets, up to half-done steps; and an id with a half-done
      step is on no other instance. */
  ghost predicate InSync(l: Lists) {
    forall user ::
      if user in l.busy
      then (user in l.redis <==> l.busy[user].1 == Adding) && OnlyOn(l, l.busy[user].0, user)
      else user in l.redis <==> Local(l, user)
  }

  lemma StepStaysInSync(l: Lists, s: Step)
    requires InSync(l) && Enabled(l, s)
    ensures InSync(Next(l, s))
  {
    var next := Next(l, s);
    forall user
      ensures if user in next.busy
              then (user in next.redis <==> next.busy[user].1 == Adding) && OnlyOn(next, next.busy[user].0, user)
              else user in next.redis <==> Local(next, user)
    {
      assert (user in l.busy) || (user in l.redis <==> Local(l, user));
      if user != s.user {
        assert forall n :: (n, user) in next.local <==> (n, user) in l.local;
      } else if s.AddLocal? {
        assert (l.busy[user].0, user) in next.local;
      }
    }
  }

  ghost predicate Runs(l: Lists, steps: seq<Step>)
    decreases |steps|
  {
    steps == [] || (Enabled(l, steps[0]) && Runs(Next(l, steps[0]), steps[1..]))
  }

  function After(l: Lists, steps: seq<Step>): Lists
    decreases |steps|
  {
    if steps == [] then l else After(Next(l, steps[0]), steps[1..])
  }

  lemma {:induction false} RunStaysInSync(l: Lists, steps: seq<Step>)
    requires InSync(l) && Runs(l, steps)
    ensures InSync(After(l, steps))
    decreases |steps|
  {
    if steps != [] {
      StepStaysInSync(l, steps[0]);
      RunStaysInSync(Next(l, steps[0]), steps[1..]);
    }
  }

  /** Whenever no operation is half done, Redis lists exactly the publishers of all instances. */
  lemma RedisIsTheUnion(steps: seq<Step>, user: string)
    requires Runs(Lists({}, {}, map[]), steps) && After(Lists({}, {}, map[]), steps).busy == map[]
    ensures user in After(Lists({}, {}, map[]), steps).redis <==> Local(After(Lists({}, {}, map[]), steps), user)
  {
    RunStaysInSync(Lists({}, {}, map[]), steps);
  }

  /** What a removal leaves. */
  lemma Removal(l: Lists, n: nat, user: string)
    requires user !in l.busy
    ensures After(l, [RemoveRemote(n, user), RemoveLocal(user)]) ==
            l.(redis := l.redis - {user}, local := l.local - {(n, user)})
  {
    var steps := [RemoveRemote(n, user), RemoveLocal(user)];
    assert steps[1..] == [RemoveLocal(user)] && steps[1..][1..] == [];
    var mid := Next(l, steps[0]);
    assert After(l, steps) == After(mid, steps[1..]) == Next(mid, RemoveLocal(user));
    assert mid.busy - {user} == l.busy;
  }

  /** A removal keeps the list right if and only if the id is on no other instance; otherwise Redis loses
      an id that is still published. */
  lemma RemovalIsRightExactly(l: Lists, n: nat, user: string)
    requires InSync(l) && user !in l.busy && (n, user) in l.local
    ensures InSync(After(l, [RemoveRemote(n, user), RemoveLocal(user)])) <==> OnlyOn(l, n, user)
  {
    Removal(l, n, user);
    var next := l.(redis := l.redis - {user}, local := l.local - {(n, user)});
    assert forall u, i :: u != user ==> ((i, u) in next.local <==> (i, u) in l.local);
    assert forall u :: u != user ==> (Local(next, u) <==> Local(l, u));
    if OnlyOn(l, n, user) {
      assert !Local(next, user);
    } else {
      var other :| (other, user) in l.local && other != n;
      assert (other, user) in next.local;
      assert Local(next, user);
    }
  }
}
