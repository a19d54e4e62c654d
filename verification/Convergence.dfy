/** Once nothing is on its way, every subscriber whose table updates worked forwards exactly what the room's media
    table asks for, and its browser has been offered exactly that. */
module Convergence {
  import opened Text
  import opened Naming
  import opened MediaTable
  import opened Reconciliation
  import opened Renegotiation
  import opened GuardTheorems
  import opened RoomSystem
  import opened RoomInvariant
  import opened NoLostUpdate

  // ---- tracks are always those of the last applied read

  /** Unless a run returned early, the subscriber's tracks are the ones expected at the time of its
      last applied read. */
  ghost predicate InStep(log: seq<Change>, s: Subscriber)
    requires s.appliedAt <= |log|
  {
    s.errors.torn || s.tracks == Expected(Replay(log[..s.appliedAt], s.room), s.user)
  }

  ghost predicate AllInStep(sys: System)
    requires Ok(sys)
  {
    forall j :: 0 <= j < |sys.members| ==>
      MemberOk(sys.log, sys.instances, sys.members[j]) && InStep(sys.log, sys.members[j].sub)
  }

  lemma StepStaysInStep(sys: System, j: nat, a: Renegotiation.Act)
    requires Ok(sys) && NoReuse(sys.log) && j < |sys.members|
    requires MemberOk(sys.log, sys.instances, sys.members[j]) && InStep(sys.log, sys.members[j].sub)
    requires Enabled(sys.members[j].sub, a) && Outcome(sys.members[j].sub, a)
    requires ReadsNow(sys, sys.members[j].sub.room, a)
    ensures Step(sys.members[j].sub, a).appliedAt <= |sys.log|
    ensures InStep(sys.log, Step(sys.members[j].sub, a))
  {
    var s := sys.members[j].sub;
    StepHistory(s, a);
    StepSame(s, a);
    if Applied(s, Step(s, a)) {
      RunCatchesUp(sys.log, s.appliedAt, s.readAt, s.room, s.user);
    }
  }

  lemma LogIsKept(sys: System, e: Event)
    requires CanHappen(sys, e)
    ensures sys.log <= Happen(sys, e).log
  {}

  lemma {:induction false} RunKeepsLog(sys: System, events: seq<Event>)
    requires Run(sys, events)
    ensures sys.log <= Final(sys, events).log
    decreases |events|
  {
    if events != [] {
      LogIsKept(sys, events[0]);
      RunKeepsLog(Happen(sys, events[0]), events[1..]);
    }
  }

  lemma PrefixNoReuse(log: seq<Change>, longer: seq<Change>)
    requires log <= longer && NoReuse(longer)
    ensures NoReuse(log)
  {}

  lemma MemberInStepLater(log: seq<Change>, longer: seq<Change>, s: Subscriber)
    requires log <= longer && s.appliedAt <= |log| && InStep(log, s)
    ensures InStep(longer, s)
  {
    assert longer[..s.appliedAt] == log[..s.appliedAt];
  }

  lemma HappenStaysInStep(sys: System, e: Event)
    requires Ok(sys) && AllInStep(sys) && CanHappen(sys, e) && NoReuse(sys.log)
    ensures Ok(Happen(sys, e)) && AllInStep(Happen(sys, e))
  {
    HappenKeepsOk(sys, e);
    LogIsKept(sys, e);
    var next := Happen(sys, e);
    forall j | 0 <= j < |next.members|
      ensures MemberOk(next.log, next.instances, next.members[j]) && InStep(next.log, next.members[j].sub)
    {
      assert MemberOk(next.log, next.instances, next.members[j]);
      if j == |sys.members| {
        var s := next.members[j].sub;
        assert s.tracks == {} == Expected(Replay([], s.room), s.user);
        assert next.log[..0] == [];
      } else if next.members[j].sub == sys.members[j].sub {
        MemberInStepLater(sys.log, next.log, sys.members[j].sub);
      } else if e.Act? {
        StepStaysInStep(sys, j, e.act);
      } else {
        StepStaysInStep(sys, j, Enqueue(sys.transit[e.i].cmd));
      }
    }
  }

  lemma {:induction false} RunStaysInStep(sys: System, events: seq<Event>)
    requires Ok(sys) && AllInStep(sys) && Run(sys, events) && NoReuse(Final(sys, events).log)
    ensures Ok(Final(sys, events)) && AllInStep(Final(sys, events))
    decreases |events|
  {
    if events != [] {
      RunKeepsLog(sys, events);
      PrefixNoReuse(sys.log, Final(sys, events).log);
      HappenStaysInStep(sys, events[0]);
      RunStaysInStep(Happen(sys, events[0]), events[1..]);
    }
  }

  // ---- changes that do not matter to a subscriber

  lemma IrrelevantChange(log: seq<Change>, c: Change, s: Subscriber)
    requires !Relevant(s, c)
    ensures Expected(Replay(log + [c], s.room), s.user) == Expected(Replay(log, s.room), s.user)
  {
    ReplayStep(log, c, s.room);
    if c.room == s.room {
      var m, m' := Replay(log, s.room), Replay(log + [c], s.room);
      assert forall row: Row :: !IsEcho(row.user, s.user) ==>
        (row in m <==> row in m') && (row in m ==> m[row] == m'[row]);
    }
  }

  lemma {:induction false} IrrelevantChanges(log: seq<Change>, a: nat, s: Subscriber)
    requires a <= |log|
    requires forall i :: a <= i < |log| ==> !Relevant(s, log[i])
    ensures Expected(Replay(log[..a], s.room), s.user) == Expected(Replay(log, s.room), s.user)
    decreases |log|
  {
    if a == |log| {
      assert log[..a] == log;
    } else {
      var prev := log[..|log| - 1];
      assert log == prev + [log[|log| - 1]] && prev[..a] == log[..a];
      IrrelevantChanges(prev, a, s);
      IrrelevantChange(prev, log[|log| - 1], s);
    }
  }

  // ---- the theorem

  /** No publisher is mid-join or mid-leave: each has announced its last table change. */
  predicate Settled(sys: System) {
    forall id :: id in sys.pubs ==> !sys.pubs[id].owes
  }

  /** The subscriber shows exactly the room: its tracks are those of the current table, and its browser was
      offered these, with the senders that a failing remove_track left behind. */
  ghost predicate Agrees(sys: System, s: Subscriber) {
    && s.tracks == Expected(Replay(sys.log, s.room), s.user)
    && s.view == s.tracks + s.errors.strays
  }

  /** Every table update did its whole work, and the last table read did not fail; earlier failed reads
      do no harm. */
  predicate Unharmed(s: Subscriber) {
    !s.errors.missed && !s.errors.torn
  }

  /** Every publisher that concerns the subscriber can be heard on the bus. */
  ghost predicate AllAnnounceable(sys: System, s: Subscriber) {
    forall i :: 0 <= i < |sys.log| && Relevant(s, sys.log[i]) ==> Announceable(sys.log[i])
  }

  lemma QuietAgrees(sys: System, j: nat)
    requires Ok(sys) && NothingLost(sys) && AllInStep(sys) && j < |sys.members| && sys.members[j].presence.Present?
    requires Settled(sys) && sys.transit == [] && Quiet(sys.members[j].sub) && Unharmed(sys.members[j].sub)
    requires AllAnnounceable(sys, sys.members[j].sub)
    ensures Agrees(sys, sys.members[j].sub)
  {
    var s := sys.members[j].sub;
    assert MemberOk(sys.log, sys.instances, sys.members[j]);
    forall i | s.readAt <= i < |sys.log|
      ensures !Relevant(s, sys.log[i])
    {
      assert !Held(s, sys.log[i], i) && !Owed(sys.pubs, sys.log[i]) && !OnItsWay(sys, j, sys.log[i], i);
      assert !Covered(sys, j, i);
    }
    IrrelevantChanges(sys.log, s.readAt, s);
    assert s.appliedAt == s.readAt;
  }

  /** End-to-end convergence, whatever order the commands were delivered in. */
  lemma Converges(start: System, events: seq<Event>, j: nat)
    requires Start(start) && Run(start, events)
    requires NoReuse(Final(start, events).log)
    requires j < |Final(start, events).members| && Final(start, events).members[j].presence.Present?
    requires Settled(Final(start, events)) && Final(start, events).transit == []
    requires Quiet(Final(start, events).members[j].sub) && Unharmed(Final(start, events).members[j].sub)
    requires AllAnnounceable(Final(start, events), Final(start, events).members[j].sub)
    ensures Agrees(Final(start, events), Final(start, events).members[j].sub)
  {
    RunLosesNothing(start, events);
    RunStaysInStep(start, events);
    QuietAgrees(Final(start, events), j);
  }

  // ---- where NoReuse comes from

  /** No on_track callback runs after its connection has deleted its first row. */
  predicate Prompt(sys: System, e: Event) {
    e.Track? && e.id in sys.pubs ==> sys.pubs[e.id].closing == Up || sys.pubs[e.id].closing == Latched
  }

  ghost predicate AllPrompt(sys: System, events: seq<Event>)
    requires Run(sys, events)
    decreases |events|
  {
    events == [] || (Prompt(sys, events[0]) && AllPrompt(Happen(sys, events[0]), events[1..]))
  }

  /** A connection with a deleted row is past the start of its closing. */
  ghost predicate DeletesAreFinal(sys: System) {
    forall d :: 0 <= d < |sys.log| && sys.log[d].Delete? ==>
      var id := PubId(sys.log[d].room, sys.log[d].user);
      id in sys.pubs && sys.pubs[id].closing != Up && sys.pubs[id].closing != Latched
  }

  lemma HappenKeepsNoReuse(sys: System, e: Event)
    requires CanHappen(sys, e) && Prompt(sys, e) && DeletesAreFinal(sys) && NoReuse(sys.log)
    ensures DeletesAreFinal(Happen(sys, e)) && NoReuse(Happen(sys, e).log)
  {}

  /** Since a full id connects once, prompt callbacks are enough for ids not to be reused. */
  lemma {:induction false} PromptRunsDoNotReuse(sys: System, events: seq<Event>)
    requires Run(sys, events) && AllPrompt(sys, events)
    requires DeletesAreFinal(sys) && NoReuse(sys.log)
    ensures NoReuse(Final(sys, events).log) && DeletesAreFinal(Final(sys, events))
    decreases |events|
  {
    if events != [] {
      HappenKeepsNoReuse(sys, events[0]);
      PromptRunsDoNotReuse(Happen(sys, events[0]), events[1..]);
    }
  }
}
