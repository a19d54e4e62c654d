/** The renegotiation guard without its locks: a command and an answer are one step
    each. The locked protocol refines this machine, so what is proved here holds there. */
module Coarse {
  import opened Text
  import opened Naming
  import opened Renegotiation
  import GuardTheorems

  /** `outstanding` counts rounds in progress, `rounds` all rounds so far, and `commands` the
      commands of other users plus one for the initial round. */
  datatype State = State(doing: bool, need: bool, outstanding: nat, rounds: nat, commands: nat)

  datatype Event = Command | Answered | Failed

  predicate Possible(c: State, e: Event) {
    e.Command? || c.outstanding > 0
  }

  function Next(c: State, e: Event): State
    requires Possible(c, e)
  {
    match e
    case Command =>
      if c.doing then c.(need := true, commands := c.commands + 1)
      else State(true, c.need, c.outstanding + 1, c.rounds + 1, c.commands + 1)
    case Answered =>
      if c.need then c.(need := false, rounds := c.rounds + 1)
      else c.(doing := false, outstanding := c.outstanding - 1)
    case Failed => c.(outstanding := c.outstanding - 1)
  }

  const START := State(false, false, 0, 0, 0)

  predicate Path(c: State, events: seq<Event>)
    decreases |events|
  {
    events == [] || (Possible(c, events[0]) && Path(Next(c, events[0]), events[1..]))
  }

  function End(c: State, events: seq<Event>): State
    requires Path(c, events)
    decreases |events|
  {
    if events == [] then c else End(Next(c, events[0]), events[1..])
  }

  // ---- safety of the coarse machine

  predicate Safe(c: State) {
    && c.outstanding <= 1
    && (c.outstanding > 0 ==> c.doing)
    && (c.need ==> c.doing)
    && c.rounds + (if c.need then 1 else 0) <= c.commands
  }

  lemma {:induction false} PathsAreSafe(c: State, events: seq<Event>)
    requires Safe(c) && Path(c, events)
    ensures Safe(End(c, events))
    decreases |events|
  {
    if events != [] {
      PathsAreSafe(Next(c, events[0]), events[1..]);
    }
  }

  // ---- what a state of the locked protocol looks like from here

  /** Offers decided on but not made yet. */
  function Upcoming(s: Subscriber): nat {
    (if s.loop.Reading? || s.loop.Applying? || s.loop.Offering? then 1 else 0) +
    (if s.handler.AnsOffering? then 1 else 0)
  }

  /** The loop has taken a command and not decided about it yet. */
  predicate Undecided(pc: LoopPc) {
    pc.Notifying? || pc.WantDoing? || pc.Deciding? || pc.WantNeed? || pc.Marking?
  }

  function View(s: Subscriber): State {
    State(s.doing, s.need, Tokens(s), s.made + Upcoming(s),
      if s.loop.NotOpen? || s.loop.Opening? || Undecided(s.loop) then s.taken else s.taken + 1)
  }

  /** The event a step commits, if any. */
  function Commits(s: Subscriber, a: Act): Option<Event> {
    match a
    case ByLoop(OpenLock) => Some(Command)
    case ByLoop(Decide) => if s.doing then None else Some(Command)
    case ByLoop(Mark) => Some(Command)
    case ByLoop(MakeOffer(ok)) => if ok then None else Some(Failed)
    case ByLoop(SendOffer(ok)) => if ok then None else Some(Failed)
    case ByHandler(Answer(ok)) => if ok then None else Some(Failed)
    case ByHandler(AnsClear) => Some(Answered)
    case ByHandler(AnsMakeOffer(ok)) => if ok then None else Some(Failed)
    case ByHandler(AnsSendOffer(ok)) => if ok then None else Some(Failed)
    case ByHandler(AnsFinish) => Some(Answered)
    case _ => None
  }

  ghost predicate Simulates(s: Subscriber, a: Act)
    requires Enabled(s, a)
  {
    match Commits(s, a)
    case None => View(Step(s, a)) == View(s)
    case Some(e) => Possible(View(s), e) && View(Step(s, a)) == Next(View(s), e)
  }

  lemma EnteringSimulates(s: Subscriber, a: LoopAct)
    requires Inv(s) && LoopEnabled(s, a) && Entering(a)
    ensures Simulates(s, ByLoop(a))
  {
    if a.Notify? {
      OffersAppend(s.down, Notice(s.loop.cmd));
    }
  }

  lemma SendingSimulates(s: Subscriber, ok: bool)
    requires Inv(s) && LoopEnabled(s, SendOffer(ok))
    ensures Simulates(s, ByLoop(SendOffer(ok)))
  {
    OffersAppend(s.down, Offer(s.loop.keys));
  }

  lemma RoundSimulates(s: Subscriber, a: LoopAct)
    requires Inv(s) && LoopEnabled(s, a) && InRound(a)
    ensures Simulates(s, ByLoop(a))
  {
    if a.SendOffer? {
      SendingSimulates(s, a.ok);
    }
  }

  lemma MarkingSimulates(s: Subscriber, a: LoopAct)
    requires Inv(s) && LoopEnabled(s, a) && !Entering(a) && !InRound(a)
    ensures Simulates(s, ByLoop(a))
  {}

  lemma AnsRoundSimulates(s: Subscriber, a: HandlerAct)
    requires Inv(s) && HandlerEnabled(s, a) && AnsInRound(a)
    ensures Simulates(s, ByHandler(a))
  {
    if a.AnsSendOffer? {
      OffersAppend(s.down, Offer(s.handler.keys));
    }
  }

  lemma AnsOtherSimulates(s: Subscriber, a: HandlerAct)
    requires Inv(s) && HandlerEnabled(s, a) && !AnsInRound(a)
    ensures Simulates(s, ByHandler(a))
  {}

  lemma StepSimulates(s: Subscriber, a: Act)
    requires Inv(s) && Enabled(s, a)
    ensures Simulates(s, a)
  {
    match a
    case ByLoop(l) =>
      if Entering(l) { EnteringSimulates(s, l); }
      else if InRound(l) { RoundSimulates(s, l); }
      else { MarkingSimulates(s, l); }
    case ByHandler(h) =>
      if AnsInRound(h) { AnsRoundSimulates(s, h); } else { AnsOtherSimulates(s, h); }
    case Browse =>
    case Enqueue(_) =>
  }

  /** Refinement: every run of the locked protocol is a path of the coarse machine. */
  lemma {:induction false} RunRefines(s: Subscriber, acts: seq<Act>) returns (events: seq<Event>)
    requires Inv(s) && Runs(s, acts)
    ensures Path(View(s), events) && End(View(s), events) == View(After(s, acts))
    decreases |acts|
  {
    if acts == [] {
      events := [];
    } else {
      var a := acts[0];
      StepSimulates(s, a);
      StepKeepsInv(s, a);
      var rest := RunRefines(Step(s, a), acts[1..]);
      match Commits(s, a)
      case None => events := rest;
      case Some(e) =>
        events := [e] + rest;
        assert events[1..] == rest;
    }
  }

  /** Coalescing: a burst of commands costs at most one offer each, plus the initial one, and
      a pending renegotiation is already paid for. */
  lemma CoalescingBound(s0: Subscriber, acts: seq<Act>)
    requires Init(s0) && Runs(s0, acts)
    ensures
      var s := After(s0, acts);
      s.made + (if s.need then 1 else 0) <= 1 + s.taken
  {
    GuardTheorems.InitInv(s0);
    var events := RunRefines(s0, acts);
    PathsAreSafe(View(s0), events);
  }
}
