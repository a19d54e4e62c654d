/** The structural invariant of the room system holds in every reachable state. */
module RoomInvariant {
  import opened Text
  import opened Commands
  import opened Naming
  import opened MediaTable
  import opened Reconciliation
  import opened Renegotiation
  import opened GuardTheorems
  import opened RoomSystem

  // ---- what one subscriber step does to its history variables and tracks

  /** The media table a task has read and not yet applied. */
  function Pending(s: Subscriber): Option<Media> {
    if s.loop.Applying? then Some(s.loop.media)
    else if s.handler.AnsApplying? then Some(s.handler.media)
    else None
  }

  ghost predicate NotApplied(s: Subscriber, t: Subscriber) {
    t.appliedAt == s.appliedAt && t.tracks == s.tracks && t.errors.torn == s.errors.torn
  }

  ghost predicate Untouched(s: Subscriber, t: Subscriber) {
    Pending(t) == Pending(s) && NotApplied(s, t)
  }

  /** The pending table was applied to the tracks, entirely unless a run has returned early. */
  ghost predicate Applied(s: Subscriber, t: Subscriber) {
    && Pending(s).Some? && Pending(t) == None && t.appliedAt == s.readAt
    && (t.errors.torn || (!s.errors.torn && t.tracks == Reconciled(Pending(s).value, s.user, s.tracks)))
  }

  ghost predicate StepHistoryOk(s: Subscriber, a: Renegotiation.Act, t: Subscriber) {
    match a
    case ByLoop(Read(m, at)) =>
      t.readAt == at && Pending(t) == Some(m) && NotApplied(s, t)
    case ByHandler(AnsRead(m, at)) =>
      t.readAt == at && Pending(t) == Some(m) && NotApplied(s, t)
    case _ =>
      t.readAt == s.readAt && (Untouched(s, t) || Applied(s, t))
  }

  lemma RoundHistory(s: Subscriber, a: LoopAct)
    requires Inv(s) && LoopEnabled(s, a) && LoopOutcome(s, a) && InRound(a)
    ensures StepHistoryOk(s, ByLoop(a), LoopStep(s, a))
  {}

  lemma LoopHistory(s: Subscriber, a: LoopAct)
    requires Inv(s) && LoopEnabled(s, a) && LoopOutcome(s, a)
    ensures StepHistoryOk(s, ByLoop(a), LoopStep(s, a))
  {
    if InRound(a) { RoundHistory(s, a); }
  }

  lemma AnsRoundHistory(s: Subscriber, a: HandlerAct)
    requires Inv(s) && HandlerEnabled(s, a) && HandlerOutcome(s, a) && AnsInRound(a)
    ensures StepHistoryOk(s, ByHandler(a), HandlerStep(s, a))
  {}

  lemma HandlerHistory(s: Subscriber, a: HandlerAct)
    requires Inv(s) && HandlerEnabled(s, a) && HandlerOutcome(s, a)
    ensures StepHistoryOk(s, ByHandler(a), HandlerStep(s, a))
  {
    if AnsInRound(a) { AnsRoundHistory(s, a); }
  }

  lemma StepHistory(s: Subscriber, a: Renegotiation.Act)
    requires Inv(s) && Enabled(s, a) && Outcome(s, a)
    ensures StepHistoryOk(s, a, Step(s, a))
  {
    match a
    case ByLoop(l) => LoopHistory(s, l);
    case ByHandler(h) => HandlerHistory(s, h);
    case Browse =>
    case Enqueue(_) =>
  }

  // ---- preservation

  lemma ActKeepsMember(sys: System, j: nat, a: Renegotiation.Act)
    requires j < |sys.members| && MemberOk(sys.log, sys.instances, sys.members[j])
    requires Enabled(sys.members[j].sub, a) && Outcome(sys.members[j].sub, a)
    requires ReadsNow(sys, sys.members[j].sub.room, a)
    ensures MemberOk(sys.log, sys.instances, sys.members[j].(sub := Step(sys.members[j].sub, a)))
  {
    var s := sys.members[j].sub;
    StepKeepsInv(s, a);
    StepHistory(s, a);
    StepSame(s, a);
    assert sys.log[..|sys.log|] == sys.log;
    var t := Step(s, a);
    assert Pending(s).Some? ==> Pending(s).value == Replay(sys.log[..s.readAt], s.room);
    assert Pending(t).Some? ==> Pending(t).value == Replay(sys.log[..t.readAt], t.room);
    assert !(t.loop.Applying? && t.handler.AnsApplying?);
  }

  lemma ChangeKeepsOk(sys: System, c: Change, pubs: map<PubId, Publisher>)
    requires Ok(sys) && IsKind(c.kind)
    ensures Ok(sys.(log := sys.log + [c], pubs := pubs))
  {
    forall j | 0 <= j < |sys.members|
      ensures MemberOk(sys.log + [c], sys.instances, sys.members[j])
    {
      LogGrows(sys.log, c, sys.instances, sys.members[j]);
    }
  }

  lemma PublishKeepsOk(sys: System, payload: Command, id: PubId)
    requires Ok(sys) && id in sys.pubs
    ensures Ok(Publish(sys, payload, id))
  {
    SentExactly(sys.instances, id.room, payload, |sys.log|);
  }

  lemma RegisterKeepsOk(sys: System, instance: nat, sub: Subscriber)
    requires Ok(sys) && CanHappen(sys, Register(instance, sub))
    ensures Ok(Happen(sys, Register(instance, sub)))
  {
    InitInv(sub);
    var next := Happen(sys, Register(instance, sub));
    forall t | t in next.transit ensures TransitOk(next.members, t) {
      TransitStaysOk(sys.members, next.members, t);
    }
  }

  lemma DeliverKeepsOk(sys: System, i: nat, order: seq<nat>)
    requires Ok(sys) && CanHappen(sys, Deliver(i, order))
    ensures Ok(Happen(sys, Deliver(i, order)))
  {
    var next := Happen(sys, Deliver(i, order));
    assert TransitOk(sys.members, next.transit[i]);
  }

  lemma MembersKeepOk(sys: System, next: System, j: nat, m: Member)
    requires Ok(sys) && j < |sys.members|
    requires next.log == sys.log && next.instances == sys.instances
    requires next.members == sys.members[j := m] && MemberOk(sys.log, sys.instances, m)
    requires Same(sys.members[j].sub, m.sub) && m.instance == sys.members[j].instance
    requires forall t :: t in next.transit ==> TransitOk(sys.members, t)
    ensures Ok(next)
  {
    forall t | t in next.transit ensures TransitOk(next.members, t) {
      TransitStaysOk(sys.members, next.members, t);
    }
  }

  lemma PushKeepsOk(sys: System, i: nat)
    requires Ok(sys) && CanHappen(sys, Push(i))
    ensures Ok(Happen(sys, Push(i)))
  {
    var t := sys.transit[i];
    var r := t.rest[0];
    var next := Happen(sys, Push(i));
    ActKeepsMember(sys, r, Enqueue(t.cmd));
    StepSame(sys.members[r].sub, Enqueue(t.cmd));
    assert TransitOk(sys.members, t);
    forall u | u in next.transit ensures TransitOk(sys.members, u) {
      if u == Fan(t.cmd, t.rest[1..]) {
        assert forall j :: j in t.rest[1..] ==> j in t.rest;
      }
    }
    MembersKeepOk(sys, next, r, next.members[r]);
  }

  lemma BounceKeepsOk(sys: System, i: nat)
    requires Ok(sys) && CanHappen(sys, Bounce(i))
    ensures Ok(Happen(sys, Bounce(i)))
  {
    var t := sys.transit[i];
    assert TransitOk(sys.members, t);
    forall u | u in Happen(sys, Bounce(i)).transit ensures TransitOk(sys.members, u) {
      if u == Fan(t.cmd, t.rest[1..]) {
        assert forall j :: j in t.rest[1..] ==> j in t.rest;
      }
    }
  }

  lemma HappenKeepsOk(sys: System, e: Event)
    requires Ok(sys) && CanHappen(sys, e)
    ensures Ok(Happen(sys, e))
  {
    match e
    case Track(id, kind) =>
      ChangeKeepsOk(sys, Increment(id.room, id.user, kind), Happen(sys, e).pubs);
    case RemoveVideo(id) => ChangeKeepsOk(sys, Delete(id.room, id.user, VIDEO), Happen(sys, e).pubs);
    case RemoveAudio(id) => ChangeKeepsOk(sys, Delete(id.room, id.user, AUDIO), Happen(sys, e).pubs);
    case Ready(id, all) =>
      PublishKeepsOk(sys.(pubs := sys.pubs[id := sys.pubs[id].(midTrack := false)]), PubJoin(id.user), id);
    case AnnounceLeft(id) =>
      PublishKeepsOk(sys.(pubs := sys.pubs[id := sys.pubs[id].(closing := Left)]), PubLeft(id.user), id);
    case Register(instance, sub) => RegisterKeepsOk(sys, instance, sub);
    case Deliver(i, order) => DeliverKeepsOk(sys, i, order);
    case Leave(j) => MembersKeepOk(sys, Happen(sys, e), j, Happen(sys, e).members[j]);
    case EndLoop(j) => MembersKeepOk(sys, Happen(sys, e), j, Happen(sys, e).members[j]);
    case Push(i) => PushKeepsOk(sys, i);
    case Bounce(i) => BounceKeepsOk(sys, i);
    case Act(j, a) =>
      ActKeepsMember(sys, j, a);
      StepSame(sys.members[j].sub, a);
      MembersKeepOk(sys, Happen(sys, e), j, Happen(sys, e).members[j]);
    case _ =>
  }

  /** A subscriber about to read its room's table can do so exactly while every count fits eight bits; what it
      reads is the table as it is. */
  lemma ReadsExactly(sys: System, j: nat)
    requires Ok(sys) && j < |sys.members| && !sys.members[j].presence.Closed?
    ensures
      var m := Replay(sys.log, sys.members[j].sub.room);
      && (sys.members[j].sub.loop == Reading ==>
            (CanHappen(sys, Act(j, ByLoop(Read(m, |sys.log|)))) <==> Readable(m)))
      && (sys.members[j].sub.handler == AnsReading ==>
            (CanHappen(sys, Act(j, ByHandler(AnsRead(m, |sys.log|)))) <==> Readable(m)))
  {
    ReplayWellFormed(sys.log, sys.members[j].sub.room);
  }

  lemma OnlyTheTableIsRead(sys: System, j: nat, m: Media, at: nat)
    requires CanHappen(sys, Act(j, ByLoop(Read(m, at)))) || CanHappen(sys, Act(j, ByHandler(AnsRead(m, at))))
    ensures m == Replay(sys.log, sys.members[j].sub.room) && at == |sys.log|
  {}

  lemma {:induction false} RunKeepsOk(sys: System, events: seq<Event>)
    requires Ok(sys) && Run(sys, events)
    ensures Ok(Final(sys, events))
    decreases |events|
  {
    if events != [] {
      HappenKeepsOk(sys, events[0]);
      RunKeepsOk(Happen(sys, events[0]), events[1..]);
    }
  }
}
