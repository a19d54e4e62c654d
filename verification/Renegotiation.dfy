/** The renegotiation guard of one subscriber as a state machine.

    Two tasks share `is_doing_renegotiation` and `need_another_renegotiation`, each
    behind its own lock: the command loop, and the handler of SDP_ANSWER messages.
    A program counter marks every point where a task may be overtaken: waiting for
    a lock, holding it, and each await inside the critical sections. The browser
    peer answers offers from one FIFO into another. */
module Renegotiation {
  import opened Text
  import opened Commands
  import opened Naming
  import opened MediaTable
  import opened Reconciliation

  /** A command of the bus. `stamp` is a history variable: the length of the table's
      change log when the command was published. */
  datatype Cmd = Cmd(payload: Command, room: string, stamp: nat)

  datatype TaskId = LoopTask | HandlerTask

  datatype Signaling = Stable | HaveLocalOffer

  /** Messages from server to browser on the data channel. An offer lists the tracks of the peer
      connection's senders. */
  datatype Down = Notice(cmd: Cmd) | Offer(keys: set<Key>)

  datatype LoopPc =
    | NotOpen                 // the data channel is not open yet
    | Opening                 // waits for is_doing before the initial round
    | Receiving               // at notify_message.recv()
    | Notifying(cmd: Cmd)     // sends PUB_JOIN / PUB_LEFT to the browser
    | WantDoing(cmd: Cmd)     // waits for is_doing
    | Deciding(cmd: Cmd)      // holds is_doing, about to test it
    | Reading                 // holds is_doing, about to read the media table
    | Applying(media: Media)  // holds is_doing, has read the table
    | Offering                // holds is_doing, about to create an offer
    | Sending(keys: set<Key>) // holds is_doing, local description set, about to send
    | Unlocking               // offer sent, still holds is_doing
    | WantNeed(cmd: Cmd)      // holds is_doing, waits for need_another
    | Marking(cmd: Cmd)       // holds both, about to set need_another
    | UnlockingBoth

  datatype HandlerPc =
    | Idle
    | AnsWantFirst               // only in the variant with one lock order
    | AnsWantNeed                // remote description set, waits for need_another
    | AnsDeciding                // holds need_another, about to test it
    | AnsReading                 // holds need_another, about to read the media table
    | AnsApplying(media: Media)
    | AnsClearing                // about to clear need_another
    | AnsOffering
    | AnsSending(keys: set<Key>)
    | AnsUnlocking               // offer sent, still holds need_another
    | AnsWantDoing               // holds need_another, waits for is_doing
    | AnsFinishing               // holds both, about to clear is_doing
    | AnsUnlockingBoth

  /** History: the errors that `catch` swallowed. */
  datatype Errors = Errors(
    lost: bool,          // an offer or an answer failed
    missed: bool,        // the last table read failed
    torn: bool,          // a table update returned early, so the three maps may disagree
    strays: set<Key>)    // the tracks of senders left behind by a failing remove_track or subscription

  datatype Subscriber = Subscriber(
    room: string,
    user: string,
    ordered: bool,       // variant: the handler takes is_doing before need_another
    queue: seq<Cmd>,     // mpsc channel of capacity 10
    loop: LoopPc,
    handler: HandlerPc,
    doing: bool,
    need: bool,
    doingOwner: Option<TaskId>,
    needOwner: Option<TaskId>,
    signaling: Signaling,
    down: seq<Down>,     // server -> browser
    answers: nat,        // SDP_ANSWERs on their way to the server
    tracks: set<Key>,    // keys of the three maps
    view: set<Key>,      // the tracks in the browser's last remote description
    readAt: nat,         // history: log length at the last table read
    appliedAt: nat,      // history: log length at the last applied table read
    taken: nat,          // history: commands of other users taken from the queue
    made: nat,           // history: offers made
    errors: Errors)

  const CAPACITY := 10

  /** What a table update does: whether it ran to its end from maps that agree, the senders it newly left
      behind, and the tracks it left. */
  datatype Effect = Effect(whole: bool, strays: set<Key>, left: set<Key>)

  datatype LoopAct =
    | Open | OpenLock | Skip | Take | Notify | LockDoing | Decide
    | Read(media: Media, at: nat) | ReadFails | ApplyTable(effect: Effect)
    | MakeOffer(ok: bool) | SendOffer(ok: bool) | Unlock
    | LockNeed | Mark | UnlockBoth

  datatype HandlerAct =
    | Answer(ok: bool) | AnsLockFirst | AnsLockNeed | AnsDecide
    | AnsRead(media: Media, at: nat) | AnsReadFails | AnsApplyTable(effect: Effect) | AnsClear
    | AnsMakeOffer(ok: bool) | AnsSendOffer(ok: bool) | AnsUnlock
    | AnsLockDoing | AnsFinish | AnsUnlockBoth

  datatype Act =
    | ByLoop(l: LoopAct)
    | ByHandler(h: HandlerAct)
    | Browse               // the browser takes one message
    | Enqueue(cmd: Cmd)    // the instance's fan-out puts a command into the queue

  ghost predicate Init(s: Subscriber) {
    && s.queue == [] && s.loop == NotOpen && s.handler == Idle
    && !s.doing && !s.need && s.doingOwner == None && s.needOwner == None
    && s.signaling == Stable && s.down == [] && s.answers == 0
    && s.tracks == {} && s.view == {}
    && s.readAt == s.appliedAt == s.taken == s.made == 0 && s.errors == Errors(false, false, false, {})
  }

  /** A command about a publisher with the subscriber's own base id; the loop ignores it. */
  predicate IsOwn(s: Subscriber, cmd: Cmd) {
    BaseId(cmd.payload.user) == BaseId(s.user)
  }

  ghost predicate LoopEnabled(s: Subscriber, a: LoopAct) {
    match a
    case Open => s.loop == NotOpen
    case OpenLock => s.loop == Opening && s.doingOwner == None
    case Skip => s.loop == Receiving && s.queue != [] && IsOwn(s, s.queue[0])
    case Take => s.loop == Receiving && s.queue != [] && !IsOwn(s, s.queue[0])
    case Notify => s.loop.Notifying?
    case LockDoing => s.loop.WantDoing? && s.doingOwner == None
    case Decide => s.loop.Deciding?
    case Read(m, _) => s.loop == Reading && WellFormed(m)
    case ReadFails => s.loop == Reading
    case ApplyTable(_) => s.loop.Applying?
    case MakeOffer(_) => s.loop == Offering
    case SendOffer(_) => s.loop.Sending?
    case Unlock => s.loop == Unlocking
    case LockNeed => s.loop.WantNeed? && s.needOwner == None
    case Mark => s.loop.Marking?
    case UnlockBoth => s.loop == UnlockingBoth
  }

  ghost predicate HandlerEnabled(s: Subscriber, a: HandlerAct) {
    match a
    case Answer(_) => s.handler == Idle && s.answers > 0
    case AnsLockFirst => s.handler == AnsWantFirst && s.doingOwner == None
    case AnsLockNeed => s.handler == AnsWantNeed && s.needOwner == None
    case AnsDecide => s.handler == AnsDeciding
    case AnsRead(m, _) => s.handler == AnsReading && WellFormed(m)
    case AnsReadFails => s.handler == AnsReading
    case AnsApplyTable(_) => s.handler.AnsApplying?
    case AnsClear => s.handler == AnsClearing
    case AnsMakeOffer(_) => s.handler == AnsOffering
    case AnsSendOffer(_) => s.handler.AnsSending?
    case AnsUnlock => s.handler == AnsUnlocking
    case AnsLockDoing => s.handler == AnsWantDoing && s.doingOwner == None
    case AnsFinish => s.handler == AnsFinishing
    case AnsUnlockBoth => s.handler == AnsUnlockingBoth
  }

  ghost predicate Enabled(s: Subscriber, a: Act) {
    match a
    case ByLoop(l) => LoopEnabled(s, l)
    case ByHandler(h) => HandlerEnabled(s, h)
    case Browse => s.down != []
    case Enqueue(_) => |s.queue| < CAPACITY
  }

  function Marked(errors: Errors, e: Effect): Errors {
    errors.(torn := errors.torn || !e.whole, strays := errors.strays + e.strays)
  }

  /** The tracks of the peer connection's senders, which an offer lists: the forwarded ones, and those whose
      sender stayed behind. After an update that returned early some of them may be missing. */
  function Senders(s: Subscriber): set<Key> {
    s.tracks + s.errors.strays
  }

  /** One step of the command loop (src/subscriber.rs:556-609). */
  ghost function LoopStep(s: Subscriber, a: LoopAct): Subscriber
    requires LoopEnabled(s, a)
  {
    match a
    case Open => s.(loop := Opening)
    case OpenLock => s.(doingOwner := Some(LoopTask), doing := true, loop := Reading)
    case Skip => s.(queue := s.queue[1..])
    case Take => s.(queue := s.queue[1..], taken := s.taken + 1, loop := Notifying(s.queue[0]))
    case Notify => s.(down := s.down + [Notice(s.loop.cmd)], loop := WantDoing(s.loop.cmd))
    case LockDoing => s.(doingOwner := Some(LoopTask), loop := Deciding(s.loop.cmd))
    case Decide =>
      if !s.doing then s.(doing := true, loop := Reading)
      else s.(loop := WantNeed(s.loop.cmd))
    case Read(m, at) => s.(readAt := at, errors := s.errors.(missed := false), loop := Applying(m))
    case ReadFails => s.(errors := s.errors.(missed := true), loop := Offering)
    case ApplyTable(e) => s.(tracks := e.left, appliedAt := s.readAt, errors := Marked(s.errors, e), loop := Offering)
    case MakeOffer(ok) =>
      if ok then s.(made := s.made + 1, signaling := HaveLocalOffer, loop := Sending(Senders(s)))
      else s.(made := s.made + 1, errors := s.errors.(lost := true), loop := Unlocking)
    case SendOffer(ok) =>
      if ok then s.(down := s.down + [Offer(s.loop.keys)], loop := Unlocking)
      else s.(errors := s.errors.(lost := true), loop := Unlocking)
    case Unlock => s.(doingOwner := None, loop := Receiving)
    case LockNeed => s.(needOwner := Some(LoopTask), loop := Marking(s.loop.cmd))
    case Mark => s.(need := true, loop := UnlockingBoth)
    case UnlockBoth => s.(needOwner := None, doingOwner := None, loop := Receiving)
  }

  /** One step of the SDP_ANSWER handler (src/subscriber.rs:648-669). */
  ghost function HandlerStep(s: Subscriber, a: HandlerAct): Subscriber
    requires HandlerEnabled(s, a)
  {
    match a
    case Answer(ok) =>
      if !ok then s.(answers := s.answers - 1, errors := s.errors.(lost := true))
      else s.(answers := s.answers - 1, signaling := Stable,
              handler := if s.ordered then AnsWantFirst else AnsWantNeed)
    case AnsLockFirst => s.(doingOwner := Some(HandlerTask), handler := AnsWantNeed)
    case AnsLockNeed => s.(needOwner := Some(HandlerTask), handler := AnsDeciding)
    case AnsDecide =>
      s.(handler := if s.need then AnsReading else if s.ordered then AnsFinishing else AnsWantDoing)
    case AnsRead(m, at) => s.(readAt := at, errors := s.errors.(missed := false), handler := AnsApplying(m))
    case AnsReadFails => s.(errors := s.errors.(missed := true), handler := AnsClearing)
    case AnsApplyTable(e) =>
      s.(tracks := e.left, appliedAt := s.readAt, errors := Marked(s.errors, e), handler := AnsClearing)
    case AnsClear => s.(need := false, handler := AnsOffering)
    case AnsMakeOffer(ok) =>
      if ok then s.(made := s.made + 1, signaling := HaveLocalOffer, handler := AnsSending(Senders(s)))
      else s.(made := s.made + 1, errors := s.errors.(lost := true), handler := AnsUnlocking)
    case AnsSendOffer(ok) =>
      if ok then s.(down := s.down + [Offer(s.handler.keys)], handler := AnsUnlocking)
      else s.(errors := s.errors.(lost := true), handler := AnsUnlocking)
    case AnsUnlock =>
      s.(needOwner := None, doingOwner := if s.ordered then None else s.doingOwner, handler := Idle)
    case AnsLockDoing => s.(doingOwner := Some(HandlerTask), handler := AnsFinishing)
    case AnsFinish => s.(doing := false, handler := AnsUnlockingBoth)
    case AnsUnlockBoth => s.(doingOwner := None, needOwner := None, handler := Idle)
  }

  /** The browser takes one data-channel message; it answers each offer once. */
  ghost function Browsed(s: Subscriber): Subscriber
    requires s.down != []
  {
    match s.down[0]
    case Notice(_) => s.(down := s.down[1..])
    case Offer(keys) => s.(down := s.down[1..], view := keys, answers := s.answers + 1)
  }

  ghost function Step(s: Subscriber, a: Act): Subscriber
    requires Enabled(s, a)
  {
    match a
    case ByLoop(l) => LoopStep(s, l)
    case ByHandler(h) => HandlerStep(s, h)
    case Browse => Browsed(s)
    case Enqueue(cmd) => s.(queue := s.queue + [cmd])
  }

  /** What a table update may do: a whole one leaves exactly the reconciled tracks, and a sender behind only
      where remove_track failed; any other does a part of the work. */
  ghost predicate Leaves(s: Subscriber, m: Media, e: Effect) {
    if e.whole
    then !s.errors.torn && e.left == Reconciled(m, s.user, s.tracks) && e.strays <= s.tracks - e.left
    else PartlyReconciled(m, s.user, s.tracks, e.left) && e.strays <= s.tracks + Expected(m, s.user)
  }

  /** The outcome an act carries is one its table update can have. */
  ghost predicate LoopOutcome(s: Subscriber, a: LoopAct) {
    a.ApplyTable? && s.loop.Applying? ==> Leaves(s, s.loop.media, a.effect)
  }

  ghost predicate HandlerOutcome(s: Subscriber, a: HandlerAct) {
    a.AnsApplyTable? && s.handler.AnsApplying? ==> Leaves(s, s.handler.media, a.effect)
  }

  ghost predicate Outcome(s: Subscriber, a: Act) {
    match a
    case ByLoop(l) => LoopOutcome(s, l)
    case ByHandler(h) => HandlerOutcome(s, h)
    case _ => true
  }

  // ---- runs

  ghost predicate Runs(s: Subscriber, acts: seq<Act>)
    decreases |acts|
  {
    acts == [] || (Enabled(s, acts[0]) && Outcome(s, acts[0]) && Runs(Step(s, acts[0]), acts[1..]))
  }

  ghost function After(s: Subscriber, acts: seq<Act>): Subscriber
    requires Runs(s, acts)
    decreases |acts|
  {
    if acts == [] then s else After(Step(s, acts[0]), acts[1..])
  }

  // ---- who holds which lock

  predicate LoopHoldsDoing(pc: LoopPc) {
    match pc
    case NotOpen => false
    case Opening => false
    case Receiving => false
    case Notifying(_) => false
    case WantDoing(_) => false
    case _ => true
  }

  predicate LoopHoldsNeed(pc: LoopPc) {
    pc.Marking? || pc.UnlockingBoth?
  }

  predicate HandlerHoldsNeed(pc: HandlerPc) {
    match pc
    case Idle => false
    case AnsWantFirst => false
    case AnsWantNeed => false
    case _ => true
  }

  predicate HandlerHoldsDoing(pc: HandlerPc, ordered: bool) {
    match pc
    case Idle => false
    case AnsWantFirst => false
    case AnsFinishing => true
    case AnsUnlockingBoth => true
    case _ => ordered
  }

  function Owner(loop: bool, handler: bool): Option<TaskId> {
    if loop then Some(LoopTask) else if handler then Some(HandlerTask) else None
  }

  /** Each lock is owned exactly by the task whose program counter says so. */
  ghost predicate LocksOk(s: Subscriber) {
    && !(LoopHoldsDoing(s.loop) && HandlerHoldsDoing(s.handler, s.ordered))
    && !(LoopHoldsNeed(s.loop) && HandlerHoldsNeed(s.handler))
    && s.doingOwner == Owner(LoopHoldsDoing(s.loop), HandlerHoldsDoing(s.handler, s.ordered))
    && s.needOwner == Owner(LoopHoldsNeed(s.loop), HandlerHoldsNeed(s.handler))
    && !(if s.ordered then s.handler.AnsWantDoing? else s.handler.AnsWantFirst?)
  }

  // ---- inside update_transceivers_based_on_room or send_data_sdp_offer

  predicate LoopCritical(pc: LoopPc) {
    pc.Reading? || pc.Applying? || pc.Offering? || pc.Sending? || pc.Unlocking?
  }

  predicate HandlerCritical(pc: HandlerPc) {
    pc.AnsReading? || pc.AnsApplying? || pc.AnsClearing? || pc.AnsOffering? || pc.AnsSending? || pc.AnsUnlocking?
  }

  // ---- the round token

  function Offers(down: seq<Down>): nat {
    if down == [] then 0 else (if down[0].Offer? then 1 else 0) + Offers(down[1..])
  }

  function LoopToken(pc: LoopPc): nat {
    if pc.Reading? || pc.Applying? || pc.Offering? || pc.Sending? then 1 else 0
  }

  function HandlerToken(pc: HandlerPc): nat {
    if pc.Idle? || pc.AnsUnlocking? || pc.AnsUnlockingBoth? then 0 else 1
  }

  /** Where the current renegotiation round is: being prepared by a task, in an offer
      or answer in flight, or being concluded by the handler. */
  function Tokens(s: Subscriber): nat {
    LoopToken(s.loop) + Offers(s.down) + s.answers + HandlerToken(s.handler)
  }

  /** The local offer is set and its answer not yet applied. */
  function Unanswered(s: Subscriber): nat {
    (if s.loop.Sending? then 1 else 0) + (if s.handler.AnsSending? then 1 else 0) + Offers(s.down) + s.answers
  }

  /** The handler holds need_another and has found it or made it false. */
  predicate PastClearing(pc: HandlerPc) {
    pc.AnsOffering? || pc.AnsSending? || pc.AnsUnlocking? || pc.AnsWantDoing? || pc.AnsFinishing? ||
    pc.AnsUnlockingBoth?
  }

  ghost predicate FlagsOk(s: Subscriber) {
    && Tokens(s) + (if s.errors.lost then 1 else 0) == (if s.doing then 1 else 0)
    && (s.need ==> s.doing)
    && (s.loop.WantNeed? || s.loop.Marking? ==> s.doing)
    && (LoopCritical(s.loop) ==> !s.need && !HandlerCritical(s.handler))
    && (s.handler.AnsReading? || s.handler.AnsApplying? || s.handler.AnsClearing? ==> s.need)
    && (PastClearing(s.handler) ==> !s.need)
    && (s.handler.AnsUnlocking? ==> s.doing)
    && (s.loop.NotOpen? || s.loop.Opening? ==> !s.doing)
  }

  ghost predicate SignalingOk(s: Subscriber) {
    !s.errors.lost ==> (s.signaling == HaveLocalOffer <==> Unanswered(s) == 1)
  }

  /** The tracks are newer than the last offer that reached the browser. */
  ghost predicate ViewLags(s: Subscriber) {
    s.loop.Offering? || s.loop.Sending? || Offers(s.down) > 0 ||
    s.handler.AnsClearing? || s.handler.AnsOffering? || s.handler.AnsSending?
  }

  /** Every offer describes the tracks as they are, and the browser lags behind only while
      an offer for newer tracks is being made or is in flight. */
  ghost predicate ContentOk(s: Subscriber) {
    && (s.loop.Sending? ==> s.loop.keys == Senders(s))
    && (s.handler.AnsSending? ==> s.handler.keys == Senders(s))
    && (forall i :: 0 <= i < |s.down| && s.down[i].Offer? ==> s.down[i].keys == Senders(s))
    && (!s.errors.lost && !ViewLags(s) ==> s.view == Senders(s))
  }

  ghost predicate TracksOk(s: Subscriber) {
    && AllWellLabelled(s.tracks) && NoEcho(s.tracks, s.user) && NoEcho(s.errors.strays, s.user)
    && (s.loop.Applying? ==> WellFormed(s.loop.media))
    && (s.handler.AnsApplying? ==> WellFormed(s.handler.media))
    && (!s.loop.Applying? && !s.handler.AnsApplying? ==> s.appliedAt == s.readAt)
    && |s.queue| <= CAPACITY
  }

  ghost predicate Control(s: Subscriber) {
    LocksOk(s) && FlagsOk(s) && SignalingOk(s)
  }

  ghost predicate Inv(s: Subscriber) {
    Control(s) && ContentOk(s) && TracksOk(s)
  }

  // ---- the invariant holds on every run

  lemma {:induction false} OffersAppend(down: seq<Down>, d: Down)
    ensures Offers(down + [d]) == Offers(down) + (if d.Offer? then 1 else 0)
  {
    if down == [] {
      assert [d][1..] == [];
    } else {
      OffersAppend(down[1..], d);
      assert (down + [d])[1..] == down[1..] + [d];
    }
  }

  lemma {:induction false} NoOffers(down: seq<Down>)
    requires Offers(down) == 0
    ensures forall i :: 0 <= i < |down| ==> !down[i].Offer?
  {
    if down != [] {
      NoOffers(down[1..]);
      assert forall i :: 1 <= i < |down| ==> down[i] == down[1..][i - 1];
    }
  }

  // The acts in groups, to keep each proof small.

  predicate Entering(a: LoopAct) {
    a.Open? || a.OpenLock? || a.Notify? || a.LockDoing? || a.Decide?
  }

  predicate InRound(a: LoopAct) {
    a.Read? || a.ReadFails? || a.ApplyTable? || a.MakeOffer? || a.SendOffer? || a.Unlock?
  }

  predicate AnsInRound(a: HandlerAct) {
    || a.AnsRead? || a.AnsReadFails? || a.AnsApplyTable?
    || a.AnsClear? || a.AnsMakeOffer? || a.AnsSendOffer? || a.AnsUnlock?
  }

  lemma EnteringKeepsControl(s: Subscriber, a: LoopAct)
    requires Control(s) && LoopEnabled(s, a) && Entering(a)
    ensures Control(LoopStep(s, a))
  {
    if a.Notify? {
      OffersAppend(s.down, Notice(s.loop.cmd));
    }
  }

  lemma EnteringKeepsData(s: Subscriber, a: LoopAct)
    requires Inv(s) && LoopEnabled(s, a) && Entering(a)
    ensures ContentOk(LoopStep(s, a)) && TracksOk(LoopStep(s, a))
  {
    if a.Notify? {
      OffersAppend(s.down, Notice(s.loop.cmd));
    }
  }

  lemma SendingKeepsControl(s: Subscriber, ok: bool)
    requires Control(s) && LoopEnabled(s, SendOffer(ok))
    ensures Control(LoopStep(s, SendOffer(ok)))
  {
    OffersAppend(s.down, Offer(s.loop.keys));
  }

  lemma RoundKeepsControl(s: Subscriber, a: LoopAct)
    requires Control(s) && LoopEnabled(s, a) && InRound(a)
    ensures Control(LoopStep(s, a))
  {
    if a.SendOffer? {
      SendingKeepsControl(s, a.ok);
    }
  }

  lemma LeftIsSound(s: Subscriber, m: Media, e: Effect)
    requires WellFormed(m) && AllWellLabelled(s.tracks) && NoEcho(s.tracks, s.user)
    requires Leaves(s, m, e)
    ensures AllWellLabelled(e.left) && NoEcho(e.left, s.user) && NoEcho(e.strays, s.user)
  {
    ExpectedIsSound(m, s.user);
    if e.whole {
      ReconciledIsSound(m, s.user, s.tracks);
    } else {
      PartIsSound(m, s.user, s.tracks, e.left);
    }
  }

  lemma RoundKeepsData(s: Subscriber, a: LoopAct)
    requires Inv(s) && LoopEnabled(s, a) && LoopOutcome(s, a) && InRound(a)
    ensures ContentOk(LoopStep(s, a)) && TracksOk(LoopStep(s, a))
  {
    match a
    case SendOffer(_) => OffersAppend(s.down, Offer(s.loop.keys));
    case ApplyTable(e) =>
      NoOffers(s.down);
      LeftIsSound(s, s.loop.media, e);
    case _ =>
  }

  lemma MarkingKeepsInv(s: Subscriber, a: LoopAct)
    requires Inv(s) && LoopEnabled(s, a) && !Entering(a) && !InRound(a)
    ensures Inv(LoopStep(s, a))
  {}

  lemma AnsSendingKeepsControl(s: Subscriber, ok: bool)
    requires Control(s) && HandlerEnabled(s, AnsSendOffer(ok))
    ensures Control(HandlerStep(s, AnsSendOffer(ok)))
  {
    OffersAppend(s.down, Offer(s.handler.keys));
  }

  lemma AnsRoundKeepsControl(s: Subscriber, a: HandlerAct)
    requires Control(s) && HandlerEnabled(s, a) && AnsInRound(a)
    ensures Control(HandlerStep(s, a))
  {
    if a.AnsSendOffer? {
      AnsSendingKeepsControl(s, a.ok);
    }
  }

  lemma AnsRoundKeepsData(s: Subscriber, a: HandlerAct)
    requires Inv(s) && HandlerEnabled(s, a) && HandlerOutcome(s, a) && AnsInRound(a)
    ensures ContentOk(HandlerStep(s, a)) && TracksOk(HandlerStep(s, a))
  {
    match a
    case AnsSendOffer(_) => OffersAppend(s.down, Offer(s.handler.keys));
    case AnsApplyTable(e) =>
      NoOffers(s.down);
      LeftIsSound(s, s.handler.media, e);
    case _ =>
  }

  lemma AnsweredKeepsControl(s: Subscriber, ok: bool)
    requires Control(s) && HandlerEnabled(s, Answer(ok))
    ensures Control(HandlerStep(s, Answer(ok)))
  {}

  lemma AnsWaitingKeepsControl(s: Subscriber, a: HandlerAct)
    requires Control(s) && HandlerEnabled(s, a)
    requires a.AnsLockFirst? || a.AnsLockNeed?
    ensures Control(HandlerStep(s, a))
  {}

  lemma AnsEndingKeepsControl(s: Subscriber, a: HandlerAct)
    requires Control(s) && HandlerEnabled(s, a)
    requires a.AnsDecide? || a.AnsLockDoing? || a.AnsFinish? || a.AnsUnlockBoth?
    ensures Control(HandlerStep(s, a))
  {}

  lemma AnsOtherKeepsData(s: Subscriber, a: HandlerAct)
    requires Inv(s) && HandlerEnabled(s, a) && !AnsInRound(a)
    ensures ContentOk(HandlerStep(s, a)) && TracksOk(HandlerStep(s, a))
  {}

  lemma BrowseKeepsInv(s: Subscriber)
    requires Inv(s) && s.down != []
    ensures Inv(Browsed(s))
  {}

  lemma EnqueueKeepsInv(s: Subscriber, cmd: Cmd)
    requires Inv(s) && |s.queue| < CAPACITY
    ensures Inv(s.(queue := s.queue + [cmd]))
  {}

  lemma LoopStepKeepsInv(s: Subscriber, a: LoopAct)
    requires Inv(s) && LoopEnabled(s, a) && LoopOutcome(s, a)
    ensures Inv(LoopStep(s, a))
  {
    if Entering(a) {
      EnteringKeepsControl(s, a);
      EnteringKeepsData(s, a);
    } else if InRound(a) {
      RoundKeepsControl(s, a);
      RoundKeepsData(s, a);
    } else {
      MarkingKeepsInv(s, a);
    }
  }

  lemma HandlerStepKeepsInv(s: Subscriber, a: HandlerAct)
    requires Inv(s) && HandlerEnabled(s, a) && HandlerOutcome(s, a)
    ensures Inv(HandlerStep(s, a))
  {
    if AnsInRound(a) {
      AnsRoundKeepsControl(s, a);
      AnsRoundKeepsData(s, a);
    } else {
      if a.Answer? {
        AnsweredKeepsControl(s, a.ok);
      } else if a.AnsLockFirst? || a.AnsLockNeed? {
        AnsWaitingKeepsControl(s, a);
      } else {
        AnsEndingKeepsControl(s, a);
      }
      AnsOtherKeepsData(s, a);
    }
  }

  lemma StepKeepsInv(s: Subscriber, a: Act)
    requires Inv(s) && Enabled(s, a) && Outcome(s, a)
    ensures Inv(Step(s, a))
  {
    match a
    case ByLoop(l) => LoopStepKeepsInv(s, l);
    case ByHandler(h) => HandlerStepKeepsInv(s, h);
    case Browse => BrowseKeepsInv(s);
    case Enqueue(cmd) => EnqueueKeepsInv(s, cmd);
  }

  lemma {:induction false} RunKeepsInv(s: Subscriber, acts: seq<Act>)
    requires Inv(s) && Runs(s, acts)
    ensures Inv(After(s, acts))
    decreases |acts|
  {
    if acts != [] {
      StepKeepsInv(s, acts[0]);
      RunKeepsInv(Step(s, acts[0]), acts[1..]);
    }
  }
}
