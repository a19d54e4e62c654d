/** What a subscriber's page is told: every command of another user that arrived, once, in order,
    and nothing else. */
module Pages {
  import opened Text
  import opened Commands
  import opened Bus
  import opened Naming
  import opened Renegotiation
  import opened GuardTheorems
  import opened RoomSystem
  import opened RoomInvariant
  import opened FanOut

  // ---- the data channel is a FIFO

  /** What an act sends to the page, and what it lets the page take. */
  function SentBy(s: Subscriber, a: Renegotiation.Act): seq<Down> {
    match a
    case ByLoop(Notify) => if s.loop.Notifying? then [Notice(s.loop.cmd)] else []
    case ByLoop(SendOffer(ok)) => if ok && s.loop.Sending? then [Offer(s.loop.keys)] else []
    case ByHandler(AnsSendOffer(ok)) => if ok && s.handler.AnsSending? then [Offer(s.handler.keys)] else []
    case _ => []
  }

  function SeenBy(s: Subscriber, a: Renegotiation.Act): seq<Down> {
    if a.Browse? && s.down != [] then [s.down[0]] else []
  }

  function ArrivedBy(a: Renegotiation.Act): seq<Cmd> {
    if a.Enqueue? then [a.cmd] else []
  }

  lemma LoopIsFifo(s: Subscriber, a: LoopAct)
    requires LoopEnabled(s, a)
    ensures s.down + SentBy(s, ByLoop(a)) == LoopStep(s, a).down
  {}

  lemma HandlerIsFifo(s: Subscriber, a: HandlerAct)
    requires HandlerEnabled(s, a)
    ensures s.down + SentBy(s, ByHandler(a)) == HandlerStep(s, a).down
  {}

  lemma StepIsFifo(s: Subscriber, a: Renegotiation.Act)
    requires Enabled(s, a)
    ensures s.down + SentBy(s, a) == SeenBy(s, a) + Step(s, a).down
  {
    match a
    case ByLoop(l) => LoopIsFifo(s, l);
    case ByHandler(h) => HandlerIsFifo(s, h);
    case Browse => assert s.down == [s.down[0]] + s.down[1..];
    case Enqueue(_) =>
  }

  // ---- the queue, and what the loop makes of it

  /** The command, unless it is about the user's own id. */
  function IfForeign(user: string, cmd: Cmd): seq<Cmd> {
    if BaseId(cmd.payload.user) == BaseId(user) then [] else [cmd]
  }

  /** The commands that are not about the user's own id, in order. */
  function Foreign(user: string, cmds: seq<Cmd>): seq<Cmd> {
    if cmds == [] then [] else IfForeign(user, cmds[0]) + Foreign(user, cmds[1..])
  }

  function Notices(ds: seq<Down>): seq<Cmd> {
    if ds == [] then [] else (if ds[0].Notice? then [ds[0].cmd] else []) + Notices(ds[1..])
  }

  lemma {:induction false} ForeignAppend(user: string, xs: seq<Cmd>, ys: seq<Cmd>)
    ensures Foreign(user, xs + ys) == Foreign(user, xs) + Foreign(user, ys)
  {
    if xs == [] {
      assert xs + ys == ys;
    } else {
      ForeignAppend(user, xs[1..], ys);
      assert (xs + ys)[0] == xs[0] && (xs + ys)[1..] == xs[1..] + ys;
      Assoc(IfForeign(user, xs[0]), Foreign(user, xs[1..]), Foreign(user, ys));
    }
  }

  lemma {:induction false} NoticesAppend(xs: seq<Down>, ys: seq<Down>)
    ensures Notices(xs + ys) == Notices(xs) + Notices(ys)
  {
    if xs == [] {
      assert xs + ys == ys;
    } else {
      NoticesAppend(xs[1..], ys);
      assert (xs + ys)[1..] == xs[1..] + ys;
    }
  }

  /** Taken from the queue and not yet passed on. */
  function InHand(pc: LoopPc): seq<Cmd> {
    if pc.Notifying? then [pc.cmd] else []
  }

  /** What the page is still to be told of. */
  function Pending(s: Subscriber): seq<Cmd> {
    InHand(s.loop) + Foreign(s.user, s.queue)
  }

  lemma LoopPasses(s: Subscriber, a: LoopAct)
    requires LoopEnabled(s, a)
    ensures Pending(s) == Notices(SentBy(s, ByLoop(a))) + Pending(LoopStep(s, a))
  {
    LoopSame(s, a);
    if a.Skip? || a.Take? {
      assert s.queue == [s.queue[0]] + s.queue[1..];
    } else if a.Notify? {
      assert SentBy(s, ByLoop(a))[1..] == [];
    }
  }

  lemma HandlerLeavesQueue(s: Subscriber, a: HandlerAct)
    requires HandlerEnabled(s, a)
    ensures HandlerStep(s, a).queue == s.queue && HandlerStep(s, a).loop == s.loop
  {}

  lemma HandlerPasses(s: Subscriber, a: HandlerAct)
    requires HandlerEnabled(s, a)
    ensures Pending(s) == Notices(SentBy(s, ByHandler(a))) + Pending(HandlerStep(s, a))
  {
    HandlerSame(s, a);
    assert Notices(SentBy(s, ByHandler(a))) == [];
    HandlerLeavesQueue(s, a);
  }

  lemma StepPasses(s: Subscriber, a: Renegotiation.Act)
    requires Enabled(s, a)
    ensures Pending(s) + Foreign(s.user, ArrivedBy(a)) == Notices(SentBy(s, a)) + Pending(Step(s, a))
  {
    match a
    case ByLoop(l) => LoopPasses(s, l);
    case ByHandler(h) => HandlerPasses(s, h);
    case Browse =>
    case Enqueue(cmd) =>
      ForeignAppend(s.user, s.queue, [cmd]);
      Assoc(InHand(s.loop), Foreign(s.user, s.queue), Foreign(s.user, [cmd]));
  }

  /** What the page has been told, is about to be told and will be told is what has arrived. */
  ghost predicate Balanced(s: Subscriber, got: seq<Cmd>, told: seq<Cmd>) {
    Foreign(s.user, got) == told + Notices(s.down) + Pending(s)
  }

  lemma Shift<T>(told: seq<T>, down: seq<T>, pending: seq<T>, more: seq<T>,
                 sent: seq<T>, pending': seq<T>, seen: seq<T>, down': seq<T>)
    requires pending + more == sent + pending' && down + sent == seen + down'
    ensures told + down + pending + more == told + seen + down' + pending'
  {
    Assoc(told + down, pending, more);
    Assoc(told + down, sent, pending');
    Assoc(told, down, sent);
    Assoc(told, seen, down');
  }

  lemma StepBalances(s: Subscriber, a: Renegotiation.Act, got: seq<Cmd>, told: seq<Cmd>)
    requires Enabled(s, a) && Balanced(s, got, told)
    ensures Balanced(Step(s, a), got + ArrivedBy(a), told + Notices(SeenBy(s, a)))
  {
    var t := Step(s, a);
    StepSame(s, a);
    StepIsFifo(s, a);
    StepPasses(s, a);
    ForeignAppend(s.user, got, ArrivedBy(a));
    NoticesAppend(s.down, SentBy(s, a));
    NoticesAppend(SeenBy(s, a), t.down);
    Shift(told, Notices(s.down), Pending(s), Foreign(s.user, ArrivedBy(a)),
          Notices(SentBy(s, a)), Pending(t), Notices(SeenBy(s, a)), Notices(t.down));
  }

  // ---- one subscriber

  function Arrived(acts: seq<Renegotiation.Act>): seq<Cmd> {
    if acts == [] then [] else ArrivedBy(acts[0]) + Arrived(acts[1..])
  }

  /** The notices the page takes in these acts. */
  ghost function Told(s: Subscriber, acts: seq<Renegotiation.Act>): seq<Cmd>
    requires Runs(s, acts)
    decreases |acts|
  {
    if acts == [] then [] else Notices(SeenBy(s, acts[0])) + Told(Step(s, acts[0]), acts[1..])
  }

  lemma {:induction false} RunBalances(s: Subscriber, acts: seq<Renegotiation.Act>, got: seq<Cmd>, told: seq<Cmd>)
    requires Runs(s, acts) && Balanced(s, got, told)
    ensures Balanced(After(s, acts), got + Arrived(acts), told + Told(s, acts))
    decreases |acts|
  {
    if acts == [] {
      assert got + [] == got && told + [] == told;
    } else {
      var a := acts[0];
      StepBalances(s, a, got, told);
      RunBalances(Step(s, a), acts[1..], got + ArrivedBy(a), told + Notices(SeenBy(s, a)));
      Assoc(got, ArrivedBy(a), Arrived(acts[1..]));
      Assoc(told, Notices(SeenBy(s, a)), Told(Step(s, a), acts[1..]));
    }
  }

  lemma FromNothing(cmds: seq<Cmd>)
    ensures [] + cmds == cmds
  {}

  /** On every run the page is told of the commands of other users, each once, in the order in which they arrived;
      the rest is in the channel, in the loop's hand or in the queue. */
  lemma PageIsToldInOrder(s0: Subscriber, acts: seq<Renegotiation.Act>)
    requires Init(s0) && Runs(s0, acts)
    ensures
      var s := After(s0, acts);
      Foreign(s0.user, Arrived(acts)) == Told(s0, acts) + Notices(s.down) + InHand(s.loop) + Foreign(s.user, s.queue)
  {
    assert Balanced(s0, [], []);
    RunBalances(s0, acts, [], []);
    RunSame(s0, acts);
    var s := After(s0, acts);
    FromNothing(Arrived(acts));
    FromNothing(Told(s0, acts));
    Assoc(Told(s0, acts) + Notices(s.down), InHand(s.loop), Foreign(s.user, s.queue));
  }

  // ---- in the whole system

  /** What an event of the system is to one subscriber: its own act, or a fan-out putting its command into the queue. */
  ghost function ActOn(sys: System, e: Event, j: nat): Option<Renegotiation.Act>
    requires CanHappen(sys, e)
  {
    match e
    case Act(k, a) => if k == j then Some(a) else None
    case Push(i) => if sys.transit[i].rest[0] == j then Some(Enqueue(sys.transit[i].cmd)) else None
    case _ => None
  }

  lemma MemberActs(sys: System, e: Event, j: nat)
    requires CanHappen(sys, e) && j < |sys.members|
    ensures j < |Happen(sys, e).members|
    ensures
      var m, n := sys.members[j], Happen(sys, e).members[j];
      match ActOn(sys, e, j)
      case None => n.sub == m.sub && n.got == m.got
      case Some(a) => Enabled(m.sub, a) && n.sub == Step(m.sub, a) && n.got == m.got + ArrivedBy(a)
  {}

  lemma NewMember(sys: System, e: Event)
    requires CanHappen(sys, e) && |Happen(sys, e).members| > |sys.members|
    ensures |Happen(sys, e).members| == |sys.members| + 1
    ensures var m := Happen(sys, e).members[|sys.members|]; Init(m.sub) && m.got == []
  {}

  /** The queue holds what came last of all that came. */
  predicate IsTail(queue: seq<Cmd>, got: seq<Cmd>) {
    |queue| <= |got| && queue == got[|got| - |queue|..]
  }

  lemma LoopKeepsTail(s: Subscriber, a: LoopAct, got: seq<Cmd>)
    requires LoopEnabled(s, a) && IsTail(s.queue, got)
    ensures IsTail(LoopStep(s, a).queue, got)
  {}

  lemma StepKeepsTail(s: Subscriber, a: Renegotiation.Act, got: seq<Cmd>)
    requires Enabled(s, a) && IsTail(s.queue, got)
    ensures IsTail(Step(s, a).queue, got + ArrivedBy(a))
  {
    match a
    case ByLoop(l) => LoopKeepsTail(s, l, got);
    case ByHandler(h) => HandlerLeavesQueue(s, h);
    case Browse =>
    case Enqueue(_) =>
    assert got + [] == got;
  }

  ghost predicate QueuesAreTails(sys: System) {
    forall j :: 0 <= j < |sys.members| ==> IsTail(sys.members[j].sub.queue, sys.members[j].got)
  }

  lemma HappenKeepsTails(sys: System, e: Event)
    requires CanHappen(sys, e) && QueuesAreTails(sys)
    ensures QueuesAreTails(Happen(sys, e))
  {
    var next := Happen(sys, e);
    forall j | 0 <= j < |next.members| ensures IsTail(next.members[j].sub.queue, next.members[j].got) {
      if j < |sys.members| {
        MemberActs(sys, e, j);
        var act := ActOn(sys, e, j);
        if act.Some? { StepKeepsTail(sys.members[j].sub, act.value, sys.members[j].got); }
      } else {
        NewMember(sys, e);
      }
    }
  }

  /** In every reachable state a subscriber's queue holds the last of the commands it got, in order and unchanged. */
  lemma {:induction false} RunKeepsTails(sys: System, events: seq<Event>)
    requires Run(sys, events) && QueuesAreTails(sys)
    ensures QueuesAreTails(Final(sys, events))
    decreases |events|
  {
    if events != [] {
      HappenKeepsTails(sys, events[0]);
      RunKeepsTails(Happen(sys, events[0]), events[1..]);
    }
  }

  /** The notices that a subscriber's page takes in the course of a run. */
  ghost function TellsPage(sys: System, events: seq<Event>, j: nat): seq<Cmd>
    requires Run(sys, events) && j < |sys.members|
    decreases |events|
  {
    if events == [] then []
    else
      MemberActs(sys, events[0], j);
      var act := ActOn(sys, events[0], j);
      (if act.Some? then Notices(SeenBy(sys.members[j].sub, act.value)) else []) +
      TellsPage(Happen(sys, events[0]), events[1..], j)
  }

  lemma {:induction false} RunBalancesMember(sys: System, events: seq<Event>, j: nat, told: seq<Cmd>)
    requires Run(sys, events) && j < |sys.members| && Balanced(sys.members[j].sub, sys.members[j].got, told)
    ensures j < |Final(sys, events).members|
    ensures
      var m := Final(sys, events).members[j];
      Balanced(m.sub, m.got, told + TellsPage(sys, events, j)) && Same(sys.members[j].sub, m.sub)
    decreases |events|
  {
    if events == [] {
      assert told + [] == told;
    } else {
      MemberActs(sys, events[0], j);
      var m := sys.members[j];
      var next := Happen(sys, events[0]);
      var act := ActOn(sys, events[0], j);
      var seen := if act.Some? then Notices(SeenBy(m.sub, act.value)) else [];
      if act.Some? {
        StepBalances(m.sub, act.value, m.got, told);
        StepSame(m.sub, act.value);
      } else {
        assert told + [] == told;
      }
      RunBalancesMember(next, events[1..], j, told + seen);
      Assoc(told, seen, TellsPage(next, events[1..], j));
    }
  }

  lemma {:induction false} CountForeign(user: string, cmds: seq<Cmd>, cmd: Cmd)
    ensures multiset(Foreign(user, cmds))[cmd] ==
            if BaseId(cmd.payload.user) == BaseId(user) then 0 else multiset(cmds)[cmd]
  {
    if cmds != [] {
      CountForeign(user, cmds[1..], cmd);
      assert cmds == [cmds[0]] + cmds[1..];
    }
  }

  /** Nothing is on its way to the page. */
  ghost predicate AtRest(s: Subscriber) {
    Notices(s.down) == [] && Pending(s) == []
  }

  lemma RestIsBalanced(s: Subscriber, got: seq<Cmd>, told: seq<Cmd>)
    requires AtRest(s)
    ensures Balanced(s, got, told) <==> Foreign(s.user, got) == told
  {
    assert told + [] + [] == told;
  }

  lemma PageLearnsWhatArrived(sys: System, events: seq<Event>, j: nat)
    requires Run(sys, events) && j < |sys.members| && AtRest(sys.members[j].sub)
    requires j < |Final(sys, events).members| && AtRest(Final(sys, events).members[j].sub)
    ensures
      var m, n := sys.members[j], Final(sys, events).members[j];
      && Same(m.sub, n.sub)
      && Foreign(m.sub.user, n.got) == Foreign(m.sub.user, m.got) + TellsPage(sys, events, j)
  {
    var m, n := sys.members[j], Final(sys, events).members[j];
    var before := Foreign(m.sub.user, m.got);
    RestIsBalanced(m.sub, m.got, before);
    RunBalancesMember(sys, events, j, before);
    RestIsBalanced(n.sub, n.got, before + TellsPage(sys, events, j));
  }

  lemma CountMore(before: seq<Cmd>, more: seq<Cmd>, cmd: Cmd)
    ensures multiset(before + more)[cmd] == multiset(before)[cmd] + multiset(more)[cmd]
  {}

  /** End to end: between two moments at rest, with nothing on the bus, the page of a connected subscriber is told of
      each command of another user in its room exactly as often as it was published, if its name can be heard, and of
      nothing else. */
  lemma PageHearsTheRoom(sys: System, events: seq<Event>, j: nat, cmd: Cmd)
    requires Ok(sys) && sys.transit == [] && Run(sys, events) && Final(sys, events).transit == []
    requires j < |sys.members| && AtRest(sys.members[j].sub)
    requires j < |Final(sys, events).members| && AtRest(Final(sys, events).members[j].sub)
    requires Final(sys, events).members[j].presence.Present?
    ensures
      var s := sys.members[j].sub;
      var sent := TimesPublished(Final(sys, events), cmd) - TimesPublished(sys, cmd);
      multiset(TellsPage(sys, events, j))[cmd] ==
      if cmd.room == s.room && IsHeard(cmd) && BaseId(cmd.payload.user) != BaseId(s.user) then sent else 0
  {
    var m, n := sys.members[j], Final(sys, events).members[j];
    PageLearnsWhatArrived(sys, events, j);
    CountMore(Foreign(m.sub.user, m.got), TellsPage(sys, events, j), cmd);
    CountForeign(m.sub.user, m.got, cmd);
    CountForeign(m.sub.user, n.got, cmd);
    ExactlyOnce(sys, events, j, cmd);
  }
}
