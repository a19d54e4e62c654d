/** No table change by another user is ever lost: until a subscriber has read the
    table after the change, something that will make it read again is still around. */
module NoLostUpdate {
  import opened Text
  import opened Commands
  import opened Bus
  import opened Naming
  import opened MediaTable
  import opened Reconciliation
  import opened Renegotiation
  import opened GuardTheorems
  import opened RoomSystem
  import opened RoomInvariant

  /** The change concerns the subscriber: same room, and not its own stream or screen share. */
  predicate Relevant(s: Subscriber, c: Change) {
    c.room == s.room && !IsEcho(c.user, s.user)
  }

  /** The commands of the change's publisher are heard on the bus. */
  predicate Announceable(c: Change) {
    WellNamed(c.room, c.user)
  }

  /** The command announces the change at position `i` of the log. */
  predicate Announces(cmd: Cmd, c: Change, i: nat) {
    cmd.room == c.room && cmd.payload.user == c.user && cmd.stamp > i
  }

  /** The command loop has taken such a command and not yet decided about it. */
  predicate LoopCarries(pc: LoopPc, c: Change, i: nat) {
    match pc
    case Notifying(cmd) => Announces(cmd, c, i)
    case WantDoing(cmd) => Announces(cmd, c, i)
    case Deciding(cmd) => Announces(cmd, c, i)
    case WantNeed(cmd) => Announces(cmd, c, i)
    case Marking(cmd) => Announces(cmd, c, i)
    case _ => false
  }

  /** A task is about to read the table, or `need_another` is set and not about to be cleared. */
  predicate WillRead(s: Subscriber) {
    || s.loop.NotOpen? || s.loop.Opening? || s.loop.Reading? || s.handler.AnsReading?
    || (s.need && !s.handler.AnsApplying? && !s.handler.AnsClearing?)
  }

  /** The subscriber itself accounts for the change; after a failed read, by having missed it. */
  ghost predicate Held(s: Subscriber, c: Change, i: nat) {
    || s.readAt > i
    || s.errors.missed
    || WillRead(s)
    || LoopCarries(s.loop, c, i)
    || (exists cmd :: cmd in s.queue && Announces(cmd, c, i))
  }

  predicate Carries(t: Transit, instance: nat, j: nat, c: Change, i: nat) {
    Announces(t.cmd, c, i) &&
    match t
    case Delivery(n, _) => n == instance
    case Fan(_, rest) => j in rest
  }

  /** The publisher has yet to announce its latest change. */
  predicate Owed(pubs: map<PubId, Publisher>, c: Change) {
    PubId(c.room, c.user) in pubs && pubs[PubId(c.room, c.user)].owes
  }

  ghost predicate OnItsWay(sys: System, j: nat, c: Change, i: nat)
    requires j < |sys.members|
  {
    exists t :: t in sys.transit && Carries(t, sys.members[j].instance, j, c, i)
  }

  ghost predicate Covered(sys: System, j: nat, i: nat)
    requires j < |sys.members| && i < |sys.log|
  {
    var c := sys.log[i];
    Held(sys.members[j].sub, c, i) || Owed(sys.pubs, c) || OnItsWay(sys, j, c, i)
  }

  /** For every connected subscriber and every relevant change of a publisher that can be heard. */
  ghost predicate NothingLost(sys: System) {
    forall j, i | 0 <= j < |sys.members| && 0 <= i < |sys.log| ::
      sys.members[j].presence.Present? && Relevant(sys.members[j].sub, sys.log[i]) && Announceable(sys.log[i]) ==>
        Covered(sys, j, i)
  }

  // ---- the subscriber's own steps

  lemma EnteringHolds(s: Subscriber, a: LoopAct, c: Change, i: nat)
    requires Inv(s) && LoopEnabled(s, a) && Entering(a) && Held(s, c, i)
    ensures Held(LoopStep(s, a), c, i)
  {}

  lemma RoundHolds(s: Subscriber, a: LoopAct, c: Change, i: nat)
    requires Inv(s) && LoopEnabled(s, a) && InRound(a) && Held(s, c, i)
    requires a.Read? ==> a.at > i
    ensures Held(LoopStep(s, a), c, i)
  {}

  /** Commands of the subscriber's own base id are dropped, but they announce no relevant change. */
  lemma TakingHolds(s: Subscriber, a: LoopAct, c: Change, i: nat)
    requires Inv(s) && LoopEnabled(s, a) && (a.Skip? || a.Take?) && Held(s, c, i) && Relevant(s, c)
    ensures Held(LoopStep(s, a), c, i)
  {
    if s.readAt <= i && !WillRead(s) && !s.errors.missed {
      var cmd :| cmd in s.queue && Announces(cmd, c, i);
      if cmd == s.queue[0] {
        assert !IsOwn(s, cmd);
        assert LoopCarries(LoopStep(s, a).loop, c, i);
      } else {
        assert cmd in s.queue[1..];
      }
    }
  }

  lemma MarkingHolds(s: Subscriber, a: LoopAct, c: Change, i: nat)
    requires Inv(s) && LoopEnabled(s, a) && Held(s, c, i)
    requires a.LockNeed? || a.Mark? || a.UnlockBoth?
    ensures Held(LoopStep(s, a), c, i)
  {}

  lemma AnsRoundHolds(s: Subscriber, a: HandlerAct, c: Change, i: nat)
    requires Inv(s) && HandlerEnabled(s, a) && AnsInRound(a) && Held(s, c, i)
    requires a.AnsRead? ==> a.at > i
    ensures Held(HandlerStep(s, a), c, i)
  {}

  lemma AnsOtherHolds(s: Subscriber, a: HandlerAct, c: Change, i: nat)
    requires Inv(s) && HandlerEnabled(s, a) && !AnsInRound(a) && Held(s, c, i)
    ensures Held(HandlerStep(s, a), c, i)
  {}

  /** Once accounted for, a change stays accounted for by the subscriber alone. */
  lemma StepHolds(sys: System, s: Subscriber, a: Renegotiation.Act, c: Change, i: nat)
    requires Inv(s) && Enabled(s, a) && ReadsNow(sys, s.room, a)
    requires Held(s, c, i) && Relevant(s, c) && i < |sys.log|
    ensures Held(Step(s, a), c, i)
  {
    match a
    case ByLoop(l) =>
      if Entering(l) { EnteringHolds(s, l, c, i); }
      else if InRound(l) { RoundHolds(s, l, c, i); }
      else if l.Skip? || l.Take? { TakingHolds(s, l, c, i); }
      else { MarkingHolds(s, l, c, i); }
    case ByHandler(h) =>
      if AnsInRound(h) { AnsRoundHolds(s, h, c, i); } else { AnsOtherHolds(s, h, c, i); }
    case Browse =>
    case Enqueue(cmd) =>
      if q :| q in s.queue && Announces(q, c, i) {
        assert q in Step(s, a).queue;
      }
  }

  // ---- the steps of the whole system

  lemma ChangeCovers(sys: System, id: PubId, pub: Publisher, c: Change, j: nat, i: nat)
    requires c.room == id.room && c.user == id.user
    requires j < |sys.members| && i <= |sys.log|
    requires i < |sys.log| ==> Covered(sys, j, i)
    ensures Covered(Change1(sys, id, pub, c), j, i)
  {
    var next := Change1(sys, id, pub, c);
    if i < |sys.log| && OnItsWay(sys, j, sys.log[i], i) {
      assert OnItsWay(next, j, next.log[i], i);
    }
  }

  /** A command that is heard announces every earlier change of its publisher to every instance. */
  lemma PublishCovers(sys: System, payload: Command, id: PubId, j: nat, i: nat)
    requires Ok(sys) && id in sys.pubs && payload.user == id.user
    requires j < |sys.members| && i < |sys.log| && Covered(sys, j, i) && Announceable(sys.log[i])
    ensures Covered(Publish(sys, payload, id), j, i)
  {
    var next := Publish(sys, payload, id);
    SentExactly(sys.instances, id.room, payload, |sys.log|);
    var c := sys.log[i];
    var m := sys.members[j];
    assert MemberOk(sys.log, sys.instances, m);
    if OnItsWay(sys, j, c, i) {
      var t :| t in sys.transit && Carries(t, m.instance, j, c, i);
      assert t in next.transit;
    } else if Owed(sys.pubs, c) && PubId(c.room, c.user) == id {
      var t := Delivery(m.instance, Cmd(payload, id.room, |sys.log|));
      assert Deliveries(sys.instances, t.cmd)[m.instance] == t;
      assert t in next.transit && Carries(t, m.instance, j, c, i);
    }
  }

  lemma DeliverCovers(sys: System, n: nat, order: seq<nat>, j: nat, i: nat)
    requires Ok(sys) && CanHappen(sys, Deliver(n, order))
    requires j < |sys.members| && sys.members[j].presence.Present? && i < |sys.log| && Covered(sys, j, i)
    requires Relevant(sys.members[j].sub, sys.log[i])
    ensures Covered(Happen(sys, Deliver(n, order)), j, i)
  {
    var next := Happen(sys, Deliver(n, order));
    var c := sys.log[i];
    var m := sys.members[j];
    if OnItsWay(sys, j, c, i) {
      var t :| t in sys.transit && Carries(t, m.instance, j, c, i);
      if t == sys.transit[n] {
        assert IsTarget(sys.members, m.instance, t.cmd.room, j);
        assert Carries(next.transit[n], m.instance, j, c, i);
      } else {
        var x :| 0 <= x < |sys.transit| && sys.transit[x] == t;
        assert next.transit[x] == t;
      }
    }
  }

  lemma PushCovers(sys: System, n: nat, j: nat, i: nat)
    requires Ok(sys) && CanHappen(sys, Push(n))
    requires j < |sys.members| && i < |sys.log| && Covered(sys, j, i)
    requires Relevant(sys.members[j].sub, sys.log[i])
    ensures Covered(Happen(sys, Push(n)), j, i)
  {
    var next := Happen(sys, Push(n));
    var c := sys.log[i];
    var m := sys.members[j];
    var f := sys.transit[n];
    if Held(m.sub, c, i) {
      if j == f.rest[0] {
        assert MemberOk(sys.log, sys.instances, m);
        StepHolds(sys, m.sub, Enqueue(f.cmd), c, i);
      }
    } else if OnItsWay(sys, j, c, i) {
      var t :| t in sys.transit && Carries(t, m.instance, j, c, i);
      if t != f {
        var x :| 0 <= x < |sys.transit| && sys.transit[x] == t;
        assert next.transit[x] == t && Carries(t, next.members[j].instance, j, c, i);
      } else if j == f.rest[0] {
        assert f.cmd in next.members[j].sub.queue;
      } else {
        assert j in f.rest[1..];
        assert Carries(next.transit[n], next.members[j].instance, j, c, i);
      }
    }
  }

  lemma BounceCovers(sys: System, n: nat, j: nat, i: nat)
    requires CanHappen(sys, Bounce(n))
    requires j < |sys.members| && sys.members[j].presence.Present? && i < |sys.log| && Covered(sys, j, i)
    ensures Covered(Happen(sys, Bounce(n)), j, i)
  {
    var next := Happen(sys, Bounce(n));
    var c := sys.log[i];
    var m := sys.members[j];
    if OnItsWay(sys, j, c, i) {
      var t :| t in sys.transit && Carries(t, m.instance, j, c, i);
      var x :| 0 <= x < |sys.transit| && sys.transit[x] == t;
      assert t.Fan? && x == n ==> j in t.rest[1..];
      assert Carries(next.transit[x], m.instance, j, c, i);
    }
  }

  lemma LeaveCovers(sys: System, e: Event, j: nat, i: nat)
    requires CanHappen(sys, e) && (e.Leave? || e.EndLoop?)
    requires j < |sys.members| && i < |sys.log| && Covered(sys, j, i)
    ensures Covered(Happen(sys, e), j, i)
  {
    if OnItsWay(sys, j, sys.log[i], i) {
      assert OnItsWay(Happen(sys, e), j, sys.log[i], i);
    }
  }

  lemma RetireCovers(sys: System, n: nat, j: nat, i: nat)
    requires CanHappen(sys, Retire(n))
    requires j < |sys.members| && i < |sys.log| && Covered(sys, j, i)
    ensures Covered(Happen(sys, Retire(n)), j, i)
  {
    var next := Happen(sys, Retire(n));
    var c := sys.log[i];
    var m := sys.members[j];
    if OnItsWay(sys, j, c, i) {
      var t :| t in sys.transit && Carries(t, m.instance, j, c, i);
      var x :| 0 <= x < |sys.transit| && sys.transit[x] == t;
      assert x != n;
      assert next.transit[if x < n then x else x - 1] == t;
    }
  }

  lemma ActCovers(sys: System, k: nat, a: Renegotiation.Act, j: nat, i: nat)
    requires Ok(sys) && CanHappen(sys, Act(k, a))
    requires j < |sys.members| && i < |sys.log| && Covered(sys, j, i)
    requires Relevant(sys.members[j].sub, sys.log[i])
    ensures Covered(Happen(sys, Act(k, a)), j, i)
  {
    var next := Happen(sys, Act(k, a));
    var c := sys.log[i];
    var m := sys.members[j];
    if Held(m.sub, c, i) {
      if j == k {
        assert MemberOk(sys.log, sys.instances, m);
        StepHolds(sys, m.sub, a, c, i);
      }
    } else if OnItsWay(sys, j, c, i) {
      assert OnItsWay(next, j, c, i);
    }
  }

  lemma RegisterCovers(sys: System, instance: nat, sub: Subscriber, j: nat, i: nat)
    requires CanHappen(sys, Register(instance, sub))
    requires j <= |sys.members| && i < |sys.log|
    requires j < |sys.members| ==> Covered(sys, j, i)
    ensures Covered(Happen(sys, Register(instance, sub)), j, i)
  {
    var next := Happen(sys, Register(instance, sub));
    if j < |sys.members| && OnItsWay(sys, j, sys.log[i], i) {
      assert OnItsWay(next, j, next.log[i], i);
    }
  }

  /** Nothing that covers a change is touched. */
  lemma CoveredElsewhere(sys: System, next: System, j: nat, i: nat)
    requires next.log == sys.log && next.members == sys.members && next.transit == sys.transit
    requires forall id :: id in sys.pubs && sys.pubs[id].owes ==> id in next.pubs && next.pubs[id].owes
    requires j < |sys.members| && i < |sys.log| && Covered(sys, j, i)
    ensures Covered(next, j, i)
  {
    if OnItsWay(sys, j, sys.log[i], i) {
      assert OnItsWay(next, j, sys.log[i], i);
    }
  }

  lemma PublisherEventCovers(sys: System, e: Event, j: nat, i: nat)
    requires Ok(sys) && CanHappen(sys, e)
    requires IsPublisherEvent(e)
    requires j < |sys.members| && i < |Happen(sys, e).log| && Announceable(Happen(sys, e).log[i])
    requires i < |sys.log| ==> Covered(sys, j, i)
    ensures Covered(Happen(sys, e), j, i)
  {
    match e
    case Track(id, kind) =>
      ChangeCovers(sys, id, sys.pubs[id].(midTrack := true), Increment(id.room, id.user, kind), j, i);
    case RemoveVideo(id) =>
      ChangeCovers(sys, id, sys.pubs[id].(closing := VideoGone), Delete(id.room, id.user, VIDEO), j, i);
    case RemoveAudio(id) =>
      ChangeCovers(sys, id, sys.pubs[id].(closing := MediaGone), Delete(id.room, id.user, AUDIO), j, i);
    case Ready(id, all) =>
      var mid := sys.(pubs := sys.pubs[id := sys.pubs[id].(midTrack := false)]);
      CoveredElsewhere(sys, mid, j, i);
      if all { PublishCovers(mid, PubJoin(id.user), id, j, i); }
    case AnnounceLeft(id) =>
      var mid := sys.(pubs := sys.pubs[id := sys.pubs[id].(closing := Left)]);
      CoveredElsewhere(sys, mid, j, i);
      PublishCovers(mid, PubLeft(id.user), id, j, i);
    case Connect(id) => CoveredElsewhere(sys, Happen(sys, e), j, i);
    case Report(id) => CoveredElsewhere(sys, Happen(sys, e), j, i);
  }

  lemma TransitEventCovers(sys: System, e: Event, j: nat, i: nat)
    requires Ok(sys) && NothingLost(sys) && CanHappen(sys, e) && IsTransitEvent(e)
    requires j < |Happen(sys, e).members| && i < |Happen(sys, e).log| && Announceable(Happen(sys, e).log[i])
    requires Happen(sys, e).members[j].presence.Present?
    requires Relevant(Happen(sys, e).members[j].sub, Happen(sys, e).log[i])
    ensures Covered(Happen(sys, e), j, i)
  {
    match e
    case Deliver(n, order) => DeliverCovers(sys, n, order, j, i);
    case Push(n) =>
      StepSame(sys.members[sys.transit[n].rest[0]].sub, Enqueue(sys.transit[n].cmd));
      PushCovers(sys, n, j, i);
    case Bounce(n) => BounceCovers(sys, n, j, i);
    case Retire(n) => RetireCovers(sys, n, j, i);
  }

  lemma MemberEventCovers(sys: System, e: Event, j: nat, i: nat)
    requires Ok(sys) && NothingLost(sys) && CanHappen(sys, e) && !IsPublisherEvent(e) && !IsTransitEvent(e)
    requires j < |Happen(sys, e).members| && i < |Happen(sys, e).log| && Announceable(Happen(sys, e).log[i])
    requires Happen(sys, e).members[j].presence.Present?
    requires Relevant(Happen(sys, e).members[j].sub, Happen(sys, e).log[i])
    ensures Covered(Happen(sys, e), j, i)
  {
    match e
    case Register(instance, sub) => RegisterCovers(sys, instance, sub, j, i);
    case Leave(_) => LeaveCovers(sys, e, j, i);
    case EndLoop(_) => LeaveCovers(sys, e, j, i);
    case Act(k, a) =>
      StepSame(sys.members[k].sub, a);
      ActCovers(sys, k, a, j, i);
  }

  lemma EventCovers(sys: System, e: Event, j: nat, i: nat)
    requires Ok(sys) && NothingLost(sys) && CanHappen(sys, e)
    requires j < |Happen(sys, e).members| && i < |Happen(sys, e).log| && Announceable(Happen(sys, e).log[i])
    requires Happen(sys, e).members[j].presence.Present?
    requires Relevant(Happen(sys, e).members[j].sub, Happen(sys, e).log[i])
    ensures Covered(Happen(sys, e), j, i)
  {
    if IsPublisherEvent(e) {
      PublisherEventCovers(sys, e, j, i);
    } else if IsTransitEvent(e) {
      TransitEventCovers(sys, e, j, i);
    } else {
      MemberEventCovers(sys, e, j, i);
    }
  }

  lemma HappenLosesNothing(sys: System, e: Event)
    requires Ok(sys) && NothingLost(sys) && CanHappen(sys, e)
    ensures NothingLost(Happen(sys, e))
  {
    var next := Happen(sys, e);
    forall j, i | 0 <= j < |next.members| && 0 <= i < |next.log| &&
                  next.members[j].presence.Present? &&
                  Relevant(next.members[j].sub, next.log[i]) && Announceable(next.log[i])
      ensures Covered(next, j, i)
    {
      EventCovers(sys, e, j, i);
    }
  }

  lemma {:induction false} RunLosesNothing(sys: System, events: seq<Event>)
    requires Ok(sys) && NothingLost(sys) && Run(sys, events)
    ensures Ok(Final(sys, events)) && NothingLost(Final(sys, events))
    decreases |events|
  {
    if events != [] {
      HappenKeepsOk(sys, events[0]);
      HappenLosesNothing(sys, events[0]);
      RunLosesNothing(Happen(sys, events[0]), events[1..]);
    }
  }

  /** No lost update, in every reachable state: the last read came after the change, or it failed,
      or the subscriber will read again, or the publisher has yet to announce it, or a command
      published after it is on the bus, in a fan-out, in the queue or in the command loop. */
  lemma NoLostUpdates(start: System, events: seq<Event>, j: nat, i: nat)
    requires Start(start) && Run(start, events)
    requires j < |Final(start, events).members| && i < |Final(start, events).log|
    requires Final(start, events).members[j].presence.Present?
    requires Relevant(Final(start, events).members[j].sub, Final(start, events).log[i])
    requires Announceable(Final(start, events).log[i])
    ensures Covered(Final(start, events), j, i)
  {
    RunLosesNothing(start, events);
  }
}
