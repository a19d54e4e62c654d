/** Fan-out delivery: every published command reaches the queue of every subscriber of its
    room exactly once, whatever the order of delivery, and no queue of another room. */
module FanOut {
  import opened Text
  import opened Commands
  import opened Bus
  import opened Naming
  import opened Renegotiation
  import opened GuardTheorems
  import opened RoomSystem
  import opened RoomInvariant
  import opened Draining

  /** The transit will put `cmd` into the queue of member `j`, which is connected to `instance`. */
  function Aimed(t: Transit, instance: nat, j: nat, cmd: Cmd): nat {
    if t.cmd != cmd then 0
    else
      match t
      case Delivery(n, _) => if n == instance then 1 else 0
      case Fan(_, rest) => if j in rest then 1 else 0
  }

  function AllAimed(ts: seq<Transit>, instance: nat, j: nat, cmd: Cmd): nat {
    if ts == [] then 0 else Aimed(ts[0], instance, j, cmd) + AllAimed(ts[1..], instance, j, cmd)
  }

  lemma {:induction false} AimedAppend(ts: seq<Transit>, us: seq<Transit>, instance: nat, j: nat, cmd: Cmd)
    ensures AllAimed(ts + us, instance, j, cmd) == AllAimed(ts, instance, j, cmd) + AllAimed(us, instance, j, cmd)
  {
    if ts == [] {
      assert ts + us == us;
    } else {
      AimedAppend(ts[1..], us, instance, j, cmd);
      assert (ts + us)[1..] == ts[1..] + us;
    }
  }

  lemma AimedUpdated(ts: seq<Transit>, i: nat, t: Transit, instance: nat, j: nat, cmd: Cmd)
    requires i < |ts|
    ensures AllAimed(ts[i := t], instance, j, cmd) + Aimed(ts[i], instance, j, cmd)
            == AllAimed(ts, instance, j, cmd) + Aimed(t, instance, j, cmd)
  {
    assert ts == ts[..i] + ([ts[i]] + ts[i + 1..]) && ts[i := t] == ts[..i] + ([t] + ts[i + 1..]);
    AimedAppend(ts[..i], [ts[i]] + ts[i + 1..], instance, j, cmd);
    AimedAppend(ts[..i], [t] + ts[i + 1..], instance, j, cmd);
  }

  lemma AimedRemoved(ts: seq<Transit>, i: nat, instance: nat, j: nat, cmd: Cmd)
    requires i < |ts|
    ensures AllAimed(RemoveAt(ts, i), instance, j, cmd) + Aimed(ts[i], instance, j, cmd)
            == AllAimed(ts, instance, j, cmd)
  {
    assert ts == ts[..i] + ([ts[i]] + ts[i + 1..]);
    AimedAppend(ts[..i], [ts[i]] + ts[i + 1..], instance, j, cmd);
    AimedAppend(ts[..i], ts[i + 1..], instance, j, cmd);
  }

  /** One copy per instance: exactly one is aimed at the instance of any given subscriber. */
  lemma {:induction false} OneDeliveryEach(n: nat, sent: Cmd, instance: nat, j: nat, cmd: Cmd)
    ensures AllAimed(Deliveries(n, sent), instance, j, cmd) == if sent == cmd && instance < n then 1 else 0
  {
    if n > 0 {
      OneDeliveryEach(n - 1, sent, instance, j, cmd);
      var last := [Delivery(n - 1, sent)];
      assert Deliveries(n, sent) == Deliveries(n - 1, sent) + last;
      AimedAppend(Deliveries(n - 1, sent), last, instance, j, cmd);
    }
  }

  // ---- conservation

  ghost predicate DistinctFans(sys: System) {
    forall t :: t in sys.transit && t.Fan? ==> NoDuplicates(t.rest)
  }

  function Received(m: Member, cmd: Cmd): nat {
    multiset(m.got)[cmd]
  }

  /** Copies of `cmd` that member `j` has received or will receive. */
  function Copies(sys: System, j: nat, cmd: Cmd): nat
    requires j < |sys.members|
  {
    Received(sys.members[j], cmd) + AllAimed(sys.transit, sys.members[j].instance, j, cmd)
  }

  function TimesPublished(sys: System, cmd: Cmd): nat {
    multiset(sys.published)[cmd]
  }

  predicate IsHeard(cmd: Cmd) {
    WellNamed(cmd.room, cmd.payload.user)
  }

  ghost predicate Conserves(sys: System, next: System, j: nat, cmd: Cmd)
    requires j < |sys.members| && j < |next.members|
  {
    var gained := Copies(next, j, cmd) - Copies(sys, j, cmd);
    var sent := if IsHeard(cmd) then TimesPublished(next, cmd) - TimesPublished(sys, cmd) else 0;
    if cmd.room == sys.members[j].sub.room
    then gained <= sent && (next.members[j].presence.Present? ==> gained == sent)
    else Received(next.members[j], cmd) == Received(sys.members[j], cmd)
  }

  lemma PublishConserves(sys: System, payload: Command, id: PubId, j: nat, cmd: Cmd)
    requires Ok(sys) && id in sys.pubs && j < |sys.members|
    ensures Conserves(sys, Publish(sys, payload, id), j, cmd)
  {
    var sent := Cmd(payload, id.room, |sys.log|);
    var more := Sent(sys.instances, id.room, payload, |sys.log|);
    SentExactly(sys.instances, id.room, payload, |sys.log|);
    var m := sys.members[j];
    assert MemberOk(sys.log, sys.instances, m);
    AimedAppend(sys.transit, more, m.instance, j, cmd);
    OneDeliveryEach(sys.instances, sent, m.instance, j, cmd);
    assert multiset(sys.published + [sent]) == multiset(sys.published) + multiset{sent};
  }

  lemma ReadyConserves(sys: System, id: PubId, all: bool, j: nat, cmd: Cmd)
    requires Ok(sys) && CanHappen(sys, Ready(id, all)) && j < |sys.members|
    ensures Conserves(sys, Happen(sys, Ready(id, all)), j, cmd)
  {
    if all {
      PublishConserves(sys.(pubs := sys.pubs[id := sys.pubs[id].(midTrack := false)]), PubJoin(id.user), id, j, cmd);
    }
  }

  lemma LeavingConserves(sys: System, id: PubId, j: nat, cmd: Cmd)
    requires Ok(sys) && CanHappen(sys, AnnounceLeft(id)) && j < |sys.members|
    ensures Conserves(sys, Happen(sys, AnnounceLeft(id)), j, cmd)
  {
    PublishConserves(sys.(pubs := sys.pubs[id := sys.pubs[id].(closing := Left)]), PubLeft(id.user), id, j, cmd);
  }

  lemma DeliverConserves(sys: System, i: nat, order: seq<nat>, j: nat, cmd: Cmd)
    requires Ok(sys) && CanHappen(sys, Deliver(i, order)) && j < |sys.members|
    ensures Conserves(sys, Happen(sys, Deliver(i, order)), j, cmd)
  {
    var t := sys.transit[i];
    AimedUpdated(sys.transit, i, Fan(t.cmd, order), sys.members[j].instance, j, cmd);
    assert j in order <==> IsTarget(sys.members, t.instance, t.cmd.room, j);
  }

  lemma BounceConserves(sys: System, i: nat, j: nat, cmd: Cmd)
    requires Ok(sys) && DistinctFans(sys) && CanHappen(sys, Bounce(i)) && j < |sys.members|
    ensures Conserves(sys, Happen(sys, Bounce(i)), j, cmd)
  {
    var t := sys.transit[i];
    var m := sys.members[j];
    AimedUpdated(sys.transit, i, Fan(t.cmd, t.rest[1..]), m.instance, j, cmd);
    assert t.rest == [t.rest[0]] + t.rest[1..];
  }

  lemma PushConserves(sys: System, i: nat, j: nat, cmd: Cmd)
    requires Ok(sys) && DistinctFans(sys) && CanHappen(sys, Push(i)) && j < |sys.members|
    ensures Conserves(sys, Happen(sys, Push(i)), j, cmd)
  {
    var t := sys.transit[i];
    var m := sys.members[j];
    AimedUpdated(sys.transit, i, Fan(t.cmd, t.rest[1..]), m.instance, j, cmd);
    assert TransitOk(sys.members, t) && NoDuplicates(t.rest);
    assert t.rest == [t.rest[0]] + t.rest[1..];
    assert t.rest[0] in t.rest && t.rest[0] !in t.rest[1..];
    assert multiset(m.got + [t.cmd]) == multiset(m.got) + multiset{t.cmd};
  }

  /** Events that neither publish nor move a command leave both sides alone. */
  lemma QuietConserves(sys: System, e: Event, j: nat, cmd: Cmd)
    requires CanHappen(sys, e) && j < |sys.members|
    requires !e.Ready? && !e.AnnounceLeft? && !IsTransitEvent(e)
    ensures j < |Happen(sys, e).members| && Conserves(sys, Happen(sys, e), j, cmd)
  {}

  lemma TransitConserves(sys: System, e: Event, j: nat, cmd: Cmd)
    requires Ok(sys) && DistinctFans(sys) && CanHappen(sys, e) && IsTransitEvent(e) && j < |sys.members|
    ensures |Happen(sys, e).members| == |sys.members| && Conserves(sys, Happen(sys, e), j, cmd)
  {
    match e
    case Deliver(i, order) => DeliverConserves(sys, i, order, j, cmd);
    case Push(i) => PushConserves(sys, i, j, cmd);
    case Bounce(i) => BounceConserves(sys, i, j, cmd);
    case Retire(i) => AimedRemoved(sys.transit, i, sys.members[j].instance, j, cmd);
  }

  lemma HappenConserves(sys: System, e: Event, j: nat, cmd: Cmd)
    requires Ok(sys) && DistinctFans(sys) && CanHappen(sys, e) && j < |sys.members|
    ensures j < |Happen(sys, e).members| && Conserves(sys, Happen(sys, e), j, cmd)
  {
    if IsTransitEvent(e) {
      TransitConserves(sys, e, j, cmd);
    } else if e.Ready? {
      ReadyConserves(sys, e.id, e.all, j, cmd);
    } else if e.AnnounceLeft? {
      LeavingConserves(sys, e.id, j, cmd);
    } else {
      QuietConserves(sys, e, j, cmd);
    }
  }

  lemma HappenKeepsDistinct(sys: System, e: Event)
    requires DistinctFans(sys) && CanHappen(sys, e)
    ensures DistinctFans(Happen(sys, e))
  {
    if e.Push? || e.Bounce? {
      assert sys.transit[e.i] in sys.transit;
    }
  }

  /** Member `j` keeps its place, its instance and its room. */
  lemma HappenKeepsPlace(sys: System, e: Event, j: nat)
    requires CanHappen(sys, e) && j < |sys.members|
    ensures j < |Happen(sys, e).members|
    ensures Same(Happen(sys, e).members[j].sub, sys.members[j].sub)
    ensures !sys.members[j].presence.Present? ==> !Happen(sys, e).members[j].presence.Present?
  {
    if e.Act? {
      StepSame(sys.members[e.j].sub, e.act);
    }
  }

  /** Over any run, what a subscriber has got and is about to get grows with what is published in
      its room, and by no more if it leaves; of other rooms it gets nothing. */
  lemma {:induction false} RunConserves(sys: System, events: seq<Event>, j: nat, cmd: Cmd)
    requires Ok(sys) && DistinctFans(sys) && Run(sys, events) && j < |sys.members|
    ensures j < |Final(sys, events).members| && Conserves(sys, Final(sys, events), j, cmd)
    ensures !sys.members[j].presence.Present? ==> !Final(sys, events).members[j].presence.Present?
    decreases |events|
  {
    if events != [] {
      HappenConserves(sys, events[0], j, cmd);
      HappenKeepsOk(sys, events[0]);
      HappenKeepsDistinct(sys, events[0]);
      HappenKeepsPlace(sys, events[0], j);
      RunConserves(Happen(sys, events[0]), events[1..], j, cmd);
    }
  }

  /** Exactly once: between two moments with nothing in transit, a subscriber's queue received each
      command of its room as many times as it was published, or at most as many if it has left, and
      none of any other room. */
  lemma ExactlyOnce(sys: System, events: seq<Event>, j: nat, cmd: Cmd)
    requires Ok(sys) && sys.transit == [] && Run(sys, events) && Final(sys, events).transit == []
    requires j < |sys.members|
    ensures j < |Final(sys, events).members|
    ensures
      var before, after := sys.members[j], Final(sys, events).members[j];
      var gained := Received(after, cmd) - Received(before, cmd);
      var sent := if IsHeard(cmd) then TimesPublished(Final(sys, events), cmd) - TimesPublished(sys, cmd) else 0;
      if cmd.room == before.sub.room
      then gained <= sent && (after.presence.Present? ==> gained == sent)
      else gained == 0
  {
    RunConserves(sys, events, j, cmd);
  }

  /** A fan-out waits for exactly as long as the queue's ten places are taken. */
  lemma PushExactly(sys: System, i: nat)
    requires CanSend(sys, i) && !sys.members[sys.transit[i].rest[0]].presence.Closed?
    ensures CanHappen(sys, Push(i)) <==> |sys.members[sys.transit[i].rest[0]].sub.queue| < 10
  {}

  /** A subscriber that leaves while its loop waits for a command closes its queue, and a fan-out passes over it. */
  lemma LeaverIsPassedOver(sys: System, j: nat, i: nat)
    requires CanSend(sys, i) && sys.transit[i].rest[0] == j
    requires sys.members[j].presence.Present? && sys.members[j].sub.loop.Receiving?
    ensures CanHappen(sys, Leave(j))
    ensures
      var s1 := Happen(sys, Leave(j));
      CanHappen(s1, EndLoop(j)) &&
      var s2 := Happen(s1, EndLoop(j));
      CanHappen(s2, Bounce(i)) &&
      var s3 := Happen(s2, Bounce(i));
      && s3.transit == sys.transit[i := Fan(sys.transit[i].cmd, sys.transit[i].rest[1..])]
      && s3.members[j].sub == sys.members[j].sub
      && !IsTarget(s3.members, sys.members[j].instance, sys.members[j].sub.room, j)
  {}

  /** No queue ever holds more than its ten places. */
  lemma QueuesAreBounded(start: System, events: seq<Event>, j: nat)
    requires Start(start) && Run(start, events) && j < |Final(start, events).members|
    ensures |Final(start, events).members[j].sub.queue| <= 10
  {
    RunKeepsOk(start, events);
    assert MemberOk(Final(start, events).log, Final(start, events).instances, Final(start, events).members[j]);
  }
}
