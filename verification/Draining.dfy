/** Once publishers stop acting and nobody joins, every run is finite; and it ends with
    every connected subscriber in agreement with its room, unless one of them is deadlocked. */
module Draining {
  import opened Text
  import opened Naming
  import opened MediaTable
  import opened Reconciliation
  import opened Renegotiation
  import opened GuardTheorems
  import opened RoomSystem
  import opened RoomInvariant
  import opened NoLostUpdate
  import opened Convergence

  /** The bus, the fan-outs, the subscribers' tasks and the browsers move; publishers do not. */
  predicate Drains(e: Event) {
    IsTransitEvent(e) || e.Act?
  }

  // ---- the work left in the system

  function TransitWork(t: Transit, members: nat): nat {
    match t
    case Delivery(_, _) => 2 + 21 * members
    case Fan(_, rest) => 1 + 21 * |rest|
  }

  function TransitsWork(ts: seq<Transit>, members: nat): nat {
    if ts == [] then 0 else TransitWork(ts[0], members) + TransitsWork(ts[1..], members)
  }

  function MembersWork(ms: seq<Member>): nat {
    if ms == [] then 0 else Work(ms[0].sub) + MembersWork(ms[1..])
  }

  function SystemWork(sys: System): nat {
    TransitsWork(sys.transit, |sys.members|) + MembersWork(sys.members)
  }

  lemma {:induction false} TransitUpdated(ts: seq<Transit>, i: nat, t: Transit, n: nat)
    requires i < |ts|
    ensures TransitsWork(ts[i := t], n) + TransitWork(ts[i], n) == TransitsWork(ts, n) + TransitWork(t, n)
  {
    if i > 0 {
      TransitUpdated(ts[1..], i - 1, t, n);
      assert ts[i := t][1..] == ts[1..][i - 1 := t];
    } else {
      assert ts[0 := t][1..] == ts[1..];
    }
  }

  lemma {:induction false} TransitRemoved(ts: seq<Transit>, i: nat, n: nat)
    requires i < |ts|
    ensures TransitsWork(RemoveAt(ts, i), n) + TransitWork(ts[i], n) == TransitsWork(ts, n)
  {
    if i > 0 {
      TransitRemoved(ts[1..], i - 1, n);
      assert RemoveAt(ts, i)[1..] == RemoveAt(ts[1..], i - 1);
    } else {
      assert RemoveAt(ts, 0) == ts[1..];
    }
  }

  lemma {:induction false} MemberUpdated(ms: seq<Member>, j: nat, m: Member)
    requires j < |ms|
    ensures MembersWork(ms[j := m]) + Work(ms[j].sub) == MembersWork(ms) + Work(m.sub)
  {
    if j > 0 {
      MemberUpdated(ms[1..], j - 1, m);
      assert ms[j := m][1..] == ms[1..][j - 1 := m];
    } else {
      assert ms[0 := m][1..] == ms[1..];
    }
  }

  /** A list of distinct numbers below `n` has at most `n` entries. */
  lemma {:induction false} Pigeonhole(q: seq<nat>, n: nat)
    requires NoDuplicates(q) && forall x :: x in q ==> x < n
    ensures |q| <= n
  {
    assert q != [] ==> q[0] in q;
    if n == 0 {
    } else if n - 1 in q {
      var i :| 0 <= i < |q| && q[i] == n - 1;
      var rest := RemoveAt(q, i);
      forall x | x in rest ensures x < n - 1 {
        assert x in q;
      }
      Pigeonhole(rest, n - 1);
    } else {
      Pigeonhole(q, n - 1);
    }
  }

  /** Every such event uses up work. */
  lemma DrainWorks(sys: System, e: Event)
    requires Ok(sys) && CanHappen(sys, e) && Drains(e)
    ensures SystemWork(Happen(sys, e)) < SystemWork(sys)
    ensures |Happen(sys, e).members| == |sys.members|
  {
    var n := |sys.members|;
    match e
    case Deliver(i, order) =>
      forall j | j in order ensures j < n {
        assert IsTarget(sys.members, sys.transit[i].instance, sys.transit[i].cmd.room, j);
      }
      Pigeonhole(order, n);
      TransitUpdated(sys.transit, i, Fan(sys.transit[i].cmd, order), n);
    case Push(i) =>
      var t := sys.transit[i];
      var r := t.rest[0];
      var next := Happen(sys, e);
      TransitUpdated(sys.transit, i, Fan(t.cmd, t.rest[1..]), n);
      MemberUpdated(sys.members, r, next.members[r]);
      assert MemberOk(sys.log, sys.instances, sys.members[r]);
      StepWorks(sys.members[r].sub, Enqueue(t.cmd));
    case Bounce(i) =>
      var t := sys.transit[i];
      TransitUpdated(sys.transit, i, Fan(t.cmd, t.rest[1..]), n);
    case Retire(i) =>
      TransitRemoved(sys.transit, i, n);
    case Act(j, a) =>
      var next := Happen(sys, e);
      MemberUpdated(sys.members, j, next.members[j]);
      assert MemberOk(sys.log, sys.instances, sys.members[j]);
      StepWorks(sys.members[j].sub, a);
  }

  predicate AllDrain(events: seq<Event>) {
    forall i :: 0 <= i < |events| ==> Drains(events[i])
  }

  /** A run in which publishers do nothing is no longer than the work at its start. */
  lemma {:induction false} DrainsAreFinite(sys: System, events: seq<Event>)
    requires Ok(sys) && Run(sys, events) && AllDrain(events)
    ensures |events| + SystemWork(Final(sys, events)) <= SystemWork(sys)
    decreases |events|
  {
    if events != [] {
      DrainWorks(sys, events[0]);
      HappenKeepsOk(sys, events[0]);
      DrainsAreFinite(Happen(sys, events[0]), events[1..]);
    }
  }

  // ---- where such a run ends

  ghost predicate Drained(sys: System) {
    forall e :: Drains(e) ==> !CanHappen(sys, e)
  }

  lemma DrainedLoopIsStuck(sys: System, j: nat, l: LoopAct)
    requires Ok(sys) && Drained(sys) && j < |sys.members| && !sys.members[j].presence.Closed?
    ensures !LoopEnabled(sys.members[j].sub, l)
  {
    var s := sys.members[j].sub;
    var now := if l.Read? then ReadFails
               else if l.ApplyTable? then ApplyTable(Effect(false, {}, s.tracks)) else l;
    assert !CanHappen(sys, Act(j, ByLoop(now)));
  }

  lemma DrainedHandlerIsStuck(sys: System, j: nat, h: HandlerAct)
    requires Ok(sys) && Drained(sys) && j < |sys.members| && !sys.members[j].presence.Closed?
    ensures !HandlerEnabled(sys.members[j].sub, h)
  {
    var s := sys.members[j].sub;
    var now := if h.AnsRead? then AnsReadFails
               else if h.AnsApplyTable? then AnsApplyTable(Effect(false, {}, s.tracks)) else h;
    assert !CanHappen(sys, Act(j, ByHandler(now)));
  }

  lemma DrainedMemberIsStuck(sys: System, j: nat)
    requires Ok(sys) && Drained(sys) && j < |sys.members| && !sys.members[j].presence.Closed?
    ensures Stuck(sys.members[j].sub)
  {
    forall l ensures !LoopEnabled(sys.members[j].sub, l) {
      DrainedLoopIsStuck(sys, j, l);
    }
    forall h ensures !HandlerEnabled(sys.members[j].sub, h) {
      DrainedHandlerIsStuck(sys, j, h);
    }
    assert !CanHappen(sys, Act(j, Browse));
  }

  /** The room's subscribers on one instance, in order. */
  function Targets(members: seq<Member>, instance: nat, room: string, n: nat): (q: seq<nat>)
    requires n <= |members|
    ensures NoDuplicates(q)
    ensures forall j: nat :: j in q <==> j < n && IsTarget(members, instance, room, j)
  {
    if n == 0 then []
    else
      var q := Targets(members, instance, room, n - 1);
      if IsTarget(members, instance, room, n - 1) then q + [n - 1] else q
  }

  /** What is left in transit is blocked: a fan-out whose next subscriber is deadlocked with a full queue. */
  ghost predicate Blocked(sys: System, t: Transit) {
    && t.Fan? && t.rest != [] && t.rest[0] < |sys.members| && !sys.members[t.rest[0]].presence.Closed?
    && Deadlocked(sys.members[t.rest[0]].sub) && |sys.members[t.rest[0]].sub.queue| == CAPACITY
  }

  lemma DeliveryCanHappen(sys: System, i: nat)
    requires i < |sys.transit| && sys.transit[i].Delivery?
    ensures exists order :: CanHappen(sys, Deliver(i, order))
  {
    var t := sys.transit[i];
    var order := Targets(sys.members, t.instance, t.cmd.room, |sys.members|);
    assert IsFanOrder(sys.members, t.instance, t.cmd.room, order);
    assert CanHappen(sys, Deliver(i, order));
  }

  lemma DrainedTransitIsBlocked(sys: System, i: nat)
    requires Ok(sys) && Drained(sys) && i < |sys.transit|
    ensures Blocked(sys, sys.transit[i])
  {
    var t := sys.transit[i];
    if t.Delivery? {
      DeliveryCanHappen(sys, i);
    } else {
      assert !CanHappen(sys, Retire(i)) && !CanHappen(sys, Push(i)) && !CanHappen(sys, Bounce(i));
      var j := t.rest[0];
      assert TransitOk(sys.members, t) && j in t.rest;
      assert MemberOk(sys.log, sys.instances, sys.members[j]);
      DrainedMemberIsStuck(sys, j);
      StuckStates(sys.members[j].sub);
    }
  }

  /** The exact ending: every subscriber whose queue is open is quiet, deadlocked or stalled, and only
      fan-outs to a deadlocked subscriber are left. */
  lemma DrainedStates(sys: System)
    requires Ok(sys) && Drained(sys)
    ensures forall j :: 0 <= j < |sys.members| && !sys.members[j].presence.Closed? ==>
              var s := sys.members[j].sub; Quiet(s) || Deadlocked(s) || Stalled(s)
    ensures forall t :: t in sys.transit ==> Blocked(sys, t)
  {
    forall j | 0 <= j < |sys.members| && !sys.members[j].presence.Closed?
      ensures var s := sys.members[j].sub; Quiet(s) || Deadlocked(s) || Stalled(s)
    {
      assert MemberOk(sys.log, sys.instances, sys.members[j]);
      DrainedMemberIsStuck(sys, j);
      StuckStates(sys.members[j].sub);
    }
    forall t | t in sys.transit ensures Blocked(sys, t) {
      var i :| 0 <= i < |sys.transit| && sys.transit[i] == t;
      DrainedTransitIsBlocked(sys, i);
    }
  }

  ghost predicate NoDeadlock(sys: System) {
    forall j :: 0 <= j < |sys.members| && !sys.members[j].presence.Closed? ==> !Deadlocked(sys.members[j].sub)
  }

  /** Eventual agreement: when the system has run dry after the publishers settled, and no subscriber
      is deadlocked, every subscriber whose offers and table updates worked agrees with its room. */
  lemma EventualAgreement(start: System, events: seq<Event>, j: nat)
    requires Start(start) && Run(start, events) && NoReuse(Final(start, events).log)
    requires Settled(Final(start, events)) && Drained(Final(start, events)) && NoDeadlock(Final(start, events))
    requires j < |Final(start, events).members| && Final(start, events).members[j].presence.Present?
    requires !Final(start, events).members[j].sub.errors.lost && Unharmed(Final(start, events).members[j].sub)
    requires AllAnnounceable(Final(start, events), Final(start, events).members[j].sub)
    ensures Agrees(Final(start, events), Final(start, events).members[j].sub)
  {
    var sys := Final(start, events);
    RunLosesNothing(start, events);
    RunStaysInStep(start, events);
    DrainedStates(sys);
    assert sys.transit != [] ==> Blocked(sys, sys.transit[0]);
    QuietAgrees(sys, j);
  }

  /** With one lock order the deadlock, and with it the condition, disappears. */
  lemma OneLockOrderAlwaysAgrees(start: System, events: seq<Event>, j: nat)
    requires Start(start) && Run(start, events) && NoReuse(Final(start, events).log)
    requires Settled(Final(start, events)) && Drained(Final(start, events))
    requires forall k :: 0 <= k < |Final(start, events).members| ==> Final(start, events).members[k].sub.ordered
    requires j < |Final(start, events).members| && Final(start, events).members[j].presence.Present?
    requires !Final(start, events).members[j].sub.errors.lost && Unharmed(Final(start, events).members[j].sub)
    requires AllAnnounceable(Final(start, events), Final(start, events).members[j].sub)
    ensures Final(start, events).transit == []
    ensures Agrees(Final(start, events), Final(start, events).members[j].sub)
  {
    var sys := Final(start, events);
    RunKeepsOk(start, events);
    forall k | 0 <= k < |sys.members| ensures !Deadlocked(sys.members[k].sub) {
      assert MemberOk(sys.log, sys.instances, sys.members[k]);
      StuckStates(sys.members[k].sub);
    }
    DrainedStates(sys);
    assert sys.transit != [] ==> Blocked(sys, sys.transit[0]);
    EventualAgreement(start, events, j);
  }
}
