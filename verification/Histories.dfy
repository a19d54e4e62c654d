/** What the history variables of a subscriber mean: each is determined by the acts of the run alone. */
module Histories {
  import opened Renegotiation
  import opened GuardTheorems
  import opened Reconciliation

  predicate ReadsTable(a: Act) {
    (a.ByLoop? && a.l.Read?) || (a.ByHandler? && a.h.AnsRead?)
  }

  predicate FailsToRead(a: Act) {
    a == ByLoop(ReadFails) || a == ByHandler(AnsReadFails)
  }

  function ReadAt(a: Act, before: nat): nat {
    match a
    case ByLoop(Read(_, at)) => at
    case ByHandler(AnsRead(_, at)) => at
    case _ => before
  }

  /** The moment of the last successful read in these acts; `before` if there is none. */
  function LastReadAt(acts: seq<Act>, before: nat): nat {
    if acts == [] then before
    else LastReadAt(acts[1..], ReadAt(acts[0], before))
  }

  /** An update that was not whole, and the senders an update left behind. */
  predicate Tears(a: Act) {
    match a
    case ByLoop(ApplyTable(e)) => !e.whole
    case ByHandler(AnsApplyTable(e)) => !e.whole
    case _ => false
  }

  function StraysOf(a: Act): set<Key> {
    match a
    case ByLoop(ApplyTable(e)) => e.strays
    case ByHandler(AnsApplyTable(e)) => e.strays
    case _ => {}
  }

  /** An offer that could not be made or sent, or an answer that could not be set. */
  predicate LosesRound(a: Act) {
    match a
    case ByLoop(MakeOffer(ok)) => !ok
    case ByLoop(SendOffer(ok)) => !ok
    case ByHandler(Answer(ok)) => !ok
    case ByHandler(AnsMakeOffer(ok)) => !ok
    case ByHandler(AnsSendOffer(ok)) => !ok
    case _ => false
  }

  predicate MakesOffer(a: Act) {
    (a.ByLoop? && a.l.MakeOffer?) || (a.ByHandler? && a.h.AnsMakeOffer?)
  }

  /** Of the reads in these acts, the last one failed; `before` if there is none. */
  predicate LastReadFailed(acts: seq<Act>, before: bool) {
    if acts == [] then before
    else LastReadFailed(acts[1..], FailsToRead(acts[0]) || (before && !ReadsTable(acts[0])))
  }

  predicate SomeTorn(acts: seq<Act>) {
    exists i :: 0 <= i < |acts| && Tears(acts[i])
  }

  function Strays(acts: seq<Act>): set<Key> {
    set i, k | 0 <= i < |acts| && k in StraysOf(acts[i]) :: k
  }

  predicate SomeLost(acts: seq<Act>) {
    exists i :: 0 <= i < |acts| && LosesRound(acts[i])
  }

  function Count(acts: seq<Act>, p: Act -> bool): nat {
    if acts == [] then 0 else (if p(acts[0]) then 1 else 0) + Count(acts[1..], p)
  }

  /** Everything that may fail can fail, and can succeed. */
  lemma BothOutcomesCanHappen(s: Subscriber, ok: bool, e: Effect)
    ensures s.loop == Offering ==> LoopEnabled(s, MakeOffer(ok))
    ensures s.loop.Sending? ==> LoopEnabled(s, SendOffer(ok))
    ensures s.loop == Reading ==> LoopEnabled(s, ReadFails)
    ensures s.loop.Applying? ==> LoopEnabled(s, ApplyTable(e))
    ensures s.handler == Idle && s.answers > 0 ==> HandlerEnabled(s, Answer(ok))
    ensures s.handler == AnsOffering ==> HandlerEnabled(s, AnsMakeOffer(ok))
    ensures s.handler.AnsSending? ==> HandlerEnabled(s, AnsSendOffer(ok))
    ensures s.handler == AnsReading ==> HandlerEnabled(s, AnsReadFails)
    ensures s.handler.AnsApplying? ==> HandlerEnabled(s, AnsApplyTable(e))
  {}

  ghost predicate StepRecords(s: Subscriber, a: Act, t: Subscriber) {
    && (t.errors.missed <==> FailsToRead(a) || (s.errors.missed && !ReadsTable(a)))
    && (t.errors.torn <==> s.errors.torn || Tears(a))
    && t.errors.strays == s.errors.strays + StraysOf(a)
    && (t.errors.lost <==> s.errors.lost || LosesRound(a))
    && t.readAt == ReadAt(a, s.readAt)
    && t.made == s.made + (if MakesOffer(a) then 1 else 0)
    && t.taken == s.taken + (if a == ByLoop(Take) then 1 else 0)
  }

  lemma ApplyRecords(s: Subscriber, e: Effect)
    requires LoopEnabled(s, ApplyTable(e))
    ensures StepRecords(s, ByLoop(ApplyTable(e)), LoopStep(s, ApplyTable(e)))
  {}

  lemma ReadRecords(s: Subscriber, a: LoopAct)
    requires LoopEnabled(s, a) && (a.Read? || a.ReadFails?)
    ensures StepRecords(s, ByLoop(a), LoopStep(s, a))
  {}

  lemma OfferRecords(s: Subscriber, a: LoopAct)
    requires LoopEnabled(s, a) && (a.MakeOffer? || a.SendOffer?)
    ensures StepRecords(s, ByLoop(a), LoopStep(s, a))
  {}

  lemma LoopRecords(s: Subscriber, a: LoopAct)
    requires LoopEnabled(s, a)
    ensures StepRecords(s, ByLoop(a), LoopStep(s, a))
  {
    if a.ApplyTable? {
      ApplyRecords(s, a.effect);
    } else if a.Read? || a.ReadFails? {
      ReadRecords(s, a);
    } else if a.MakeOffer? || a.SendOffer? {
      OfferRecords(s, a);
    }
  }

  lemma AnsRoundRecords(s: Subscriber, a: HandlerAct)
    requires HandlerEnabled(s, a) && AnsInRound(a)
    ensures StepRecords(s, ByHandler(a), HandlerStep(s, a))
  {}

  lemma HandlerRecords(s: Subscriber, a: HandlerAct)
    requires HandlerEnabled(s, a)
    ensures StepRecords(s, ByHandler(a), HandlerStep(s, a))
  {
    if AnsInRound(a) {
      AnsRoundRecords(s, a);
    }
  }

  lemma ActRecords(s: Subscriber, a: Act)
    requires Enabled(s, a)
    ensures StepRecords(s, a, Step(s, a))
  {
    match a
    case ByLoop(l) => LoopRecords(s, l);
    case ByHandler(h) => HandlerRecords(s, h);
    case Browse =>
    case Enqueue(_) =>
  }

  lemma FirstOf(acts: seq<Act>)
    requires acts != []
    ensures SomeTorn(acts) <==> Tears(acts[0]) || SomeTorn(acts[1..])
    ensures Strays(acts) == StraysOf(acts[0]) + Strays(acts[1..])
    ensures SomeLost(acts) <==> LosesRound(acts[0]) || SomeLost(acts[1..])
  {
    var rest := acts[1..];
    forall i | 0 <= i < |acts| ensures acts[i] == if i == 0 then acts[0] else rest[i - 1] {}
    forall i | 0 <= i < |rest| ensures rest[i] == acts[i + 1] {}
  }

  /** A read was missed exactly when the last one failed; an update was torn, a round lost or a sender left
      behind exactly when some act says so; and offers made and commands taken are counted. */
  lemma {:induction false} RunRecords(s: Subscriber, acts: seq<Act>)
    requires Runs(s, acts)
    ensures
      var t := After(s, acts);
      && (t.errors.missed <==> LastReadFailed(acts, s.errors.missed))
      && (t.errors.torn <==> s.errors.torn || SomeTorn(acts))
      && t.errors.strays == s.errors.strays + Strays(acts)
      && (t.errors.lost <==> s.errors.lost || SomeLost(acts))
      && t.readAt == LastReadAt(acts, s.readAt)
      && t.made == s.made + Count(acts, MakesOffer)
      && t.taken == s.taken + Count(acts, a => a == ByLoop(Take))
    decreases |acts|
  {
    if acts != [] {
      ActRecords(s, acts[0]);
      RunRecords(Step(s, acts[0]), acts[1..]);
      FirstOf(acts);
    }
  }
}
