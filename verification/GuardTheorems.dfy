/** What the renegotiation guard guarantees on every run of one subscriber, and
    exactly how a run can end. */
module GuardTheorems {
  import opened Text
  import opened Naming
  import opened Reconciliation
  import opened Renegotiation

  lemma InitInv(s: Subscriber)
    requires Init(s)
    ensures Inv(s)
  {}

  lemma ReachableInv(s0: Subscriber, acts: seq<Act>)
    requires Init(s0) && Runs(s0, acts)
    ensures Inv(After(s0, acts))
  {
    InitInv(s0);
    RunKeepsInv(s0, acts);
  }

  /** The loop holds only is_doing and the handler only need_another, and still they are
      never both inside update_transceivers_based_on_room or send_data_sdp_offer. */
  lemma MutualExclusion(s0: Subscriber, acts: seq<Act>)
    requires Init(s0) && Runs(s0, acts)
    ensures !(LoopCritical(After(s0, acts).loop) && HandlerCritical(After(s0, acts).handler))
  {
    ReachableInv(s0, acts);
  }

  /** Section 4 of RFC 3264: at most one offer is unanswered, none while is_doing is false, and
      a task that is about to create an offer finds the signaling state stable. */
  lemma OneOutstandingOffer(s0: Subscriber, acts: seq<Act>)
    requires Init(s0) && Runs(s0, acts)
    ensures
      var s := After(s0, acts);
      && Unanswered(s) <= 1
      && (!s.doing ==> Unanswered(s) == 0)
      && (s.loop.Offering? || s.handler.AnsOffering? ==> s.signaling == Stable && Unanswered(s) == 0)
      && (!s.doing ==> s.signaling == Stable)
  {
    ReachableInv(s0, acts);
  }

  lemma LoopChangesTracks(s: Subscriber, a: LoopAct)
    requires LoopEnabled(s, a) && !a.ApplyTable?
    ensures LoopStep(s, a).tracks == s.tracks
  {}

  lemma HandlerChangesTracks(s: Subscriber, a: HandlerAct)
    requires HandlerEnabled(s, a) && !a.AnsApplyTable?
    ensures HandlerStep(s, a).tracks == s.tracks
  {}

  lemma OnlyApplyChangesTracks(s: Subscriber, a: Act)
    requires Enabled(s, a) && !(a.ByLoop? && a.l.ApplyTable?) && !(a.ByHandler? && a.h.AnsApplyTable?)
    ensures Step(s, a).tracks == s.tracks
  {
    match a
    case ByLoop(l) => LoopChangesTracks(s, l);
    case ByHandler(h) => HandlerChangesTracks(s, h);
    case Browse =>
    case Enqueue(_) =>
  }

  /** The transceivers never change while an offer is unanswered: a step that changes the tracks
      starts in the stable state and leaves a round open, whose offer then describes them. */
  lemma TracksChangeWhenStable(s0: Subscriber, acts: seq<Act>, a: Act)
    requires Init(s0) && Runs(s0, acts) && Enabled(After(s0, acts), a)
    ensures
      var s := After(s0, acts);
      Step(s, a).tracks != s.tracks ==>
        s.signaling == Stable && Unanswered(s) == 0 && s.doing && Tokens(Step(s, a)) == 1
  {
    ReachableInv(s0, acts);
    var s := After(s0, acts);
    if !(a.ByLoop? && a.l.ApplyTable?) && !(a.ByHandler? && a.h.AnsApplyTable?) {
      OnlyApplyChangesTracks(s, a);
    }
  }

  lemma NeedImpliesDoing(s0: Subscriber, acts: seq<Act>)
    requires Init(s0) && Runs(s0, acts)
    ensures After(s0, acts).need ==> After(s0, acts).doing
  {
    ReachableInv(s0, acts);
  }

  ghost predicate Same(s: Subscriber, t: Subscriber) {
    s.user == t.user && s.room == t.room && s.ordered == t.ordered
  }

  lemma LoopSame(s: Subscriber, a: LoopAct)
    requires LoopEnabled(s, a)
    ensures Same(s, LoopStep(s, a))
  {}

  lemma HandlerSame(s: Subscriber, a: HandlerAct)
    requires HandlerEnabled(s, a)
    ensures Same(s, HandlerStep(s, a))
  {}

  lemma StepSame(s: Subscriber, a: Act)
    requires Enabled(s, a)
    ensures Same(s, Step(s, a))
  {
    match a
    case ByLoop(l) => LoopSame(s, l);
    case ByHandler(h) => HandlerSame(s, h);
    case Browse =>
    case Enqueue(_) =>
  }

  lemma {:induction false} RunSame(s: Subscriber, acts: seq<Act>)
    requires Runs(s, acts)
    ensures Same(s, After(s, acts))
    decreases |acts|
  {
    if acts != [] {
      StepSame(s, acts[0]);
      RunSame(Step(s, acts[0]), acts[1..]);
    }
  }

  /** No subscriber ever forwards its own streams, nor those of its own screen share; no sender left behind is
      one of them either. */
  lemma EchoFreedom(s0: Subscriber, acts: seq<Act>, k: Key)
    requires Init(s0) && Runs(s0, acts)
    requires k in Senders(After(s0, acts))
    ensures BaseId(k.user) != BaseId(s0.user)
    ensures BaseId(k.user) != BaseId(s0.user) + "-screen"
  {
    ReachableInv(s0, acts);
    RunSame(s0, acts);
  }

  /** In terms of ids: nothing published under the subscriber's own id, or as the screen of it, is ever
      forwarded or left in an offer, whatever the random parts. */
  lemma OwnStreamsAreNeverForwarded(s0: Subscriber, acts: seq<Act>, id: string, random: string, other: string, k: Key)
    requires Init(s0) && Runs(s0, acts) && '+' !in id && s0.user == id + "+" + random
    requires k in Senders(After(s0, acts))
    ensures k.user != id + "+" + other && k.user != id + "-screen" + "+" + other
  {
    EchoFreedom(s0, acts, k);
    BaseIdOf(id, random);
    BaseIdOf(id, other);
    BaseIdOf(id + "-screen", other);
  }

  /** The loop skips a command exactly when it is about the subscriber's own id, whatever the random part. */
  lemma OwnExactly(s: Subscriber, cmd: Cmd, id: string, random: string, pub: string, other: string)
    requires '+' !in id && '+' !in pub && s.user == id + "+" + random && cmd.payload.user == pub + "+" + other
    requires s.loop == Receiving && s.queue != [] && s.queue[0] == cmd
    ensures LoopEnabled(s, Skip) <==> pub == id
    ensures LoopEnabled(s, Take) <==> pub != id
  {
    BaseIdOf(id, random);
    BaseIdOf(pub, other);
  }

  // ---- how a run can end

  /** Nothing in progress: the loop waits on an empty queue and no round is open. */
  ghost predicate Quiet(s: Subscriber) {
    s.loop == Receiving && s.queue == [] && s.handler == Idle && s.down == [] && s.answers == 0 && !s.doing
  }

  /** The loop holds is_doing and waits for need_another; the handler holds need_another
      and waits for is_doing. */
  ghost predicate Deadlocked(s: Subscriber) {
    s.loop.WantNeed? && s.handler == AnsWantDoing
  }

  /** An offer or an answer failed: is_doing stays true and no answer will come. */
  ghost predicate Stalled(s: Subscriber) {
    s.loop == Receiving && s.queue == [] && s.handler == Idle && s.answers == 0 && s.doing && s.errors.lost
  }

  /** Neither task nor the browser can move. */
  ghost predicate Stuck(s: Subscriber) {
    (forall l :: !LoopEnabled(s, l)) && (forall h :: !HandlerEnabled(s, h)) && s.down == []
  }

  /** An act that fits the loop's program counter. */
  ghost function NextOfLoop(s: Subscriber): LoopAct {
    match s.loop
    case NotOpen => Open
    case Opening => OpenLock
    case Receiving => if s.queue != [] && IsOwn(s, s.queue[0]) then Skip else Take
    case Notifying(_) => Notify
    case WantDoing(_) => LockDoing
    case Deciding(_) => Decide
    case Reading => Read(map[], 0)
    case Applying(_) => ApplyTable(Effect(false, {}, s.tracks))
    case Offering => MakeOffer(true)
    case Sending(_) => SendOffer(true)
    case Unlocking => Unlock
    case WantNeed(_) => LockNeed
    case Marking(_) => Mark
    case UnlockingBoth => UnlockBoth
  }

  ghost function NextOfHandler(s: Subscriber): HandlerAct {
    match s.handler
    case Idle => Answer(true)
    case AnsWantFirst => AnsLockFirst
    case AnsWantNeed => AnsLockNeed
    case AnsDeciding => AnsDecide
    case AnsReading => AnsRead(map[], 0)
    case AnsApplying(_) => AnsApplyTable(Effect(false, {}, s.tracks))
    case AnsClearing => AnsClear
    case AnsOffering => AnsMakeOffer(true)
    case AnsSending(_) => AnsSendOffer(true)
    case AnsUnlocking => AnsUnlock
    case AnsWantDoing => AnsLockDoing
    case AnsFinishing => AnsFinish
    case AnsUnlockingBoth => AnsUnlockBoth
  }

  lemma LoopWaits(s: Subscriber)
    requires Inv(s) && !LoopEnabled(s, NextOfLoop(s))
    ensures
      || (s.loop == Receiving && s.queue == [])
      || (s.loop.WantNeed? && HandlerHoldsNeed(s.handler))
      || ((s.loop.WantDoing? || s.loop.Opening?) && HandlerHoldsDoing(s.handler, s.ordered))
  {}

  lemma HandlerWaits(s: Subscriber)
    requires Inv(s) && !HandlerEnabled(s, NextOfHandler(s))
    ensures
      || (s.handler == Idle && s.answers == 0)
      || (s.handler == AnsWantNeed && LoopHoldsNeed(s.loop))
      || ((s.handler == AnsWantFirst || s.handler == AnsWantDoing) && LoopHoldsDoing(s.loop))
  {}

  /** The only endings are quiet, deadlocked or stalled; with one lock order there is no deadlock. */
  lemma StuckStates(s: Subscriber)
    requires Inv(s)
    ensures Stuck(s) <==> s.down == [] && (Quiet(s) || Deadlocked(s) || Stalled(s))
    ensures s.ordered ==> !Deadlocked(s)
  {
    if Stuck(s) {
      LoopWaits(s);
      HandlerWaits(s);
    }
  }

  // ---- every run is finite once no more commands come in

  function LoopRank(pc: LoopPc): nat {
    match pc
    case NotOpen => 19
    case Opening => 18
    case Receiving => 0
    case Notifying(_) => 19
    case WantDoing(_) => 17
    case Deciding(_) => 16
    case Reading => 15
    case Applying(_) => 14
    case Offering => 13
    case Sending(_) => 12
    case Unlocking => 1
    case WantNeed(_) => 15
    case Marking(_) => 14
    case UnlockingBoth => 1
  }

  function HandlerRank(pc: HandlerPc): nat {
    match pc
    case Idle => 0
    case AnsWantFirst => 7
    case AnsWantNeed => 6
    case AnsDeciding => 5
    case AnsReading => 4
    case AnsApplying(_) => 3
    case AnsClearing => 2
    case AnsOffering => 13
    case AnsSending(_) => 12
    case AnsUnlocking => 1
    case AnsWantDoing => 3
    case AnsFinishing => 2
    case AnsUnlockingBoth => 1
  }

  function InFlight(down: seq<Down>): nat {
    if down == [] then 0 else (if down[0].Offer? then 10 else 1) + InFlight(down[1..])
  }

  /** The work a subscriber has left: what is queued, what is pending, and where the tasks are. */
  function Work(s: Subscriber): nat {
    20 * |s.queue| + (if s.need then 12 else 0) + LoopRank(s.loop) + HandlerRank(s.handler) +
    InFlight(s.down) + 8 * s.answers
  }

  lemma {:induction false} InFlightAppend(down: seq<Down>, d: Down)
    ensures InFlight(down + [d]) == InFlight(down) + (if d.Offer? then 10 else 1)
  {
    if down == [] {
      assert [d][1..] == [];
    } else {
      InFlightAppend(down[1..], d);
      assert (down + [d])[1..] == down[1..] + [d];
    }
  }

  lemma SendingWorks(s: Subscriber, ok: bool)
    requires LoopEnabled(s, SendOffer(ok))
    ensures Work(LoopStep(s, SendOffer(ok))) < Work(s)
  {
    InFlightAppend(s.down, Offer(s.loop.keys));
  }

  lemma RoundWorks(s: Subscriber, a: LoopAct)
    requires LoopEnabled(s, a) && InRound(a) && !a.SendOffer?
    ensures Work(LoopStep(s, a)) < Work(s)
  {}

  lemma LoopWorks(s: Subscriber, a: LoopAct)
    requires LoopEnabled(s, a)
    ensures Work(LoopStep(s, a)) < Work(s)
  {
    if a.SendOffer? {
      SendingWorks(s, a.ok);
    } else if InRound(a) {
      RoundWorks(s, a);
    } else if a.Notify? {
      InFlightAppend(s.down, Notice(s.loop.cmd));
    }
  }

  lemma AnsSendingWorks(s: Subscriber, ok: bool)
    requires HandlerEnabled(s, AnsSendOffer(ok))
    ensures Work(HandlerStep(s, AnsSendOffer(ok))) < Work(s)
  {
    InFlightAppend(s.down, Offer(s.handler.keys));
  }

  lemma HandlerWorks(s: Subscriber, a: HandlerAct)
    requires Inv(s) && HandlerEnabled(s, a)
    ensures Work(HandlerStep(s, a)) < Work(s)
  {
    if a.AnsSendOffer? {
      AnsSendingWorks(s, a.ok);
    }
  }

  lemma StepWorks(s: Subscriber, a: Act)
    requires Inv(s) && Enabled(s, a)
    ensures if a.Enqueue? then Work(Step(s, a)) == Work(s) + 20 else Work(Step(s, a)) < Work(s)
  {
    match a
    case ByLoop(l) => LoopWorks(s, l);
    case ByHandler(h) => HandlerWorks(s, h);
    case Browse =>
    case Enqueue(_) =>
  }

  function Enqueued(acts: seq<Act>): nat {
    if acts == [] then 0 else (if acts[0].Enqueue? then 1 else 0) + Enqueued(acts[1..])
  }

  /** A run is no longer than the work at its start plus 21 for each command that came in. */
  lemma {:induction false} RunsAreFinite(s: Subscriber, acts: seq<Act>)
    requires Inv(s) && Runs(s, acts)
    ensures |acts| + Work(After(s, acts)) <= Work(s) + 21 * Enqueued(acts)
    decreases |acts|
  {
    if acts != [] {
      StepWorks(s, acts[0]);
      StepKeepsInv(s, acts[0]);
      RunsAreFinite(Step(s, acts[0]), acts[1..]);
    }
  }

  // ---- the deadlock is real, and for good

  /** Nothing the subscriber, its browser or the fan-out does ends a deadlock. */
  lemma DeadlockStays(s: Subscriber, a: Act)
    requires Inv(s) && Deadlocked(s) && Enabled(s, a)
    ensures Deadlocked(Step(s, a))
  {}

  lemma {:induction false} DeadlockIsForGood(s: Subscriber, acts: seq<Act>)
    requires Inv(s) && Deadlocked(s) && Runs(s, acts)
    ensures Deadlocked(After(s, acts))
    decreases |acts|
  {
    if acts != [] {
      DeadlockStays(s, acts[0]);
      StepKeepsInv(s, acts[0]);
      DeadlockIsForGood(Step(s, acts[0]), acts[1..]);
    }
  }

  lemma {:induction false} Extend(s: Subscriber, acts: seq<Act>, a: Act)
    requires Runs(s, acts) && Enabled(After(s, acts), a) && Outcome(After(s, acts), a)
    ensures Runs(s, acts + [a]) && After(s, acts + [a]) == Step(After(s, acts), a)
    decreases |acts|
  {
    if acts == [] {
      assert [a][1..] == [];
    } else {
      Extend(Step(s, acts[0]), acts[1..], a);
      assert (acts + [a])[1..] == acts[1..] + [a];
    }
  }

  // ---- exactly when the deadlock is reachable

  /** All commands that come in are among `pool`. */
  ghost predicate Arrivals(acts: seq<Act>, pool: iset<Cmd>) {
    forall i :: 0 <= i < |acts| && acts[i].Enqueue? ==> acts[i].cmd in pool
  }

  ghost predicate Reaches(s0: Subscriber, pool: iset<Cmd>, s: Subscriber) {
    exists acts :: Runs(s0, acts) && Arrivals(acts, pool) && After(s0, acts) == s
  }

  lemma Do(s0: Subscriber, pool: iset<Cmd>, s: Subscriber, a: Act) returns (s': Subscriber)
    requires Reaches(s0, pool, s) && Enabled(s, a) && Outcome(s, a) && (a.Enqueue? ==> a.cmd in pool)
    ensures s' == Step(s, a) && Reaches(s0, pool, s')
  {
    s' := Step(s, a);
    var acts :| Runs(s0, acts) && Arrivals(acts, pool) && After(s0, acts) == s;
    Extend(s0, acts, a);
    assert Arrivals(acts + [a], pool);
  }

  /** The loop has made its first offer. */
  lemma FirstOffer(s0: Subscriber, pool: iset<Cmd>) returns (s: Subscriber)
    requires Init(s0)
    ensures Reaches(s0, pool, s) && Same(s0, s)
    ensures s.loop == Receiving && s.handler == Idle && s.doing && !s.need && s.doingOwner == s.needOwner == None
    ensures s.queue == [] && s.answers == 0 && |s.down| == 1 && s.down[0].Offer?
  {
    assert Runs(s0, []) && Arrivals([], pool) && After(s0, []) == s0;
    s := Do(s0, pool, s0, ByLoop(Open));
    s := Do(s0, pool, s, ByLoop(OpenLock));
    s := Do(s0, pool, s, ByLoop(ReadFails));
    s := Do(s0, pool, s, ByLoop(MakeOffer(true)));
    s := Do(s0, pool, s, ByLoop(SendOffer(true)));
    s := Do(s0, pool, s, ByLoop(Unlock));
  }

  /** A command of another user that arrives while the first answer is being handled leads to the deadlock. */
  lemma DeadlockIsReachable(s0: Subscriber, pool: iset<Cmd>, cmd: Cmd) returns (s: Subscriber)
    requires Init(s0) && !s0.ordered && cmd in pool && !IsOwn(s0, cmd)
    ensures Reaches(s0, pool, s) && Deadlocked(s)
  {
    s := FirstOffer(s0, pool);
    s := Do(s0, pool, s, Browse);
    s := Do(s0, pool, s, ByHandler(Answer(true)));
    s := Do(s0, pool, s, ByHandler(AnsLockNeed));
    s := Do(s0, pool, s, ByHandler(AnsDecide));
    s := Do(s0, pool, s, Enqueue(cmd));
    s := Do(s0, pool, s, ByLoop(Take));
    s := Do(s0, pool, s, ByLoop(Notify));
    s := Do(s0, pool, s, ByLoop(LockDoing));
    s := Do(s0, pool, s, ByLoop(Decide));
  }

  /** The loop carries no command and every queued one is the subscriber's own. */
  ghost predicate OwnOnly(s: Subscriber) {
    && !s.loop.Notifying? && !s.loop.WantDoing? && !s.loop.Deciding? && !s.loop.WantNeed? && !s.loop.Marking?
    && forall cmd :: cmd in s.queue ==> IsOwn(s, cmd)
  }

  lemma LoopStaysOwn(s: Subscriber, a: LoopAct)
    requires OwnOnly(s) && LoopEnabled(s, a)
    ensures OwnOnly(LoopStep(s, a))
  {
    LoopSame(s, a);
    assert forall cmd :: cmd in LoopStep(s, a).queue ==> cmd in s.queue;
  }

  lemma HandlerStaysOwn(s: Subscriber, a: HandlerAct)
    requires OwnOnly(s) && HandlerEnabled(s, a)
    ensures OwnOnly(HandlerStep(s, a))
  {
    HandlerSame(s, a);
  }

  lemma StepStaysOwn(s: Subscriber, a: Act)
    requires OwnOnly(s) && Enabled(s, a) && (a.Enqueue? ==> IsOwn(s, a.cmd))
    ensures OwnOnly(Step(s, a))
  {
    match a
    case ByLoop(l) => LoopStaysOwn(s, l);
    case ByHandler(h) => HandlerStaysOwn(s, h);
    case Browse =>
    case Enqueue(_) =>
  }

  /** Commands of the subscriber's own base id never bring about the deadlock, in any state that holds no other. */
  lemma {:induction false} OwnCommandsAreHarmless(s: Subscriber, acts: seq<Act>, pool: iset<Cmd>)
    requires OwnOnly(s) && Runs(s, acts) && Arrivals(acts, pool) && forall cmd :: cmd in pool ==> IsOwn(s, cmd)
    ensures OwnOnly(After(s, acts)) && !Deadlocked(After(s, acts))
    decreases |acts|
  {
    if acts != [] {
      StepStaysOwn(s, acts[0]);
      StepSame(s, acts[0]);
      OwnCommandsAreHarmless(Step(s, acts[0]), acts[1..], pool);
    }
  }

  /** The code deadlocks on some run if and only if some command that may arrive is about another user. */
  lemma DeadlockExactly(s0: Subscriber, pool: iset<Cmd>)
    requires Init(s0) && !s0.ordered
    ensures (exists s :: Reaches(s0, pool, s) && Deadlocked(s)) <==> exists cmd :: cmd in pool && !IsOwn(s0, cmd)
  {
    if cmd :| cmd in pool && !IsOwn(s0, cmd) {
      var s := DeadlockIsReachable(s0, pool, cmd);
    } else {
      forall s | Reaches(s0, pool, s) ensures !Deadlocked(s) {
        var acts :| Runs(s0, acts) && Arrivals(acts, pool) && After(s0, acts) == s;
        OwnCommandsAreHarmless(s0, acts, pool);
      }
    }
  }
}
