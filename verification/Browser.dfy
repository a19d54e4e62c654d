/** The browser's side of the naming: full ids are built when publishing or subscribing and
    taken apart again when a notification or a stream arrives. */
module Browser {
  import opened Text
  import opened Commands
  import Naming

  const SCREEN := "-screen"

  datatype Role = Publisher | Subscriber

  // ---- string primitives of the page

  predicate Occurs(s: string, p: string, i: nat) {
    i + |p| <= |s| && s[i..i + |p|] == p
  }

  lemma OccursLater(s: string, p: string, i: nat)
    requires s != ""
    ensures Occurs(s, p, i + 1) <==> Occurs(s[1..], p, i)
  {
    if i + 1 + |p| <= |s| {
      assert s[i + 1..i + 1 + |p|] == s[1..][i..i + |p|];
    }
  }

  /** The first position of `p` in `s`. */
  function IndexOf(s: string, p: string): (r: Option<nat>)
    requires p != ""
    ensures r.Some? ==> Occurs(s, p, r.value) && forall i: nat :: i < r.value ==> !Occurs(s, p, i)
    ensures r.None? ==> forall i: nat :: !Occurs(s, p, i)
  {
    if |s| < |p| then None
    else if s[..|p|] == p then Some(0)
    else
      var r := IndexOf(s[1..], p);
      assert s[..|p|] == s[0..0 + |p|];
      assert !Occurs(s, p, 0);
      assert forall i: nat :: Occurs(s, p, i) ==> i > 0 && Occurs(s[1..], p, i - 1) by {
        forall i: nat | Occurs(s, p, i) ensures i > 0 && Occurs(s[1..], p, i - 1) {
          OccursLater(s, p, i - 1);
        }
      }
      match r
      case None => None
      case Some(i) =>
        OccursLater(s, p, i);
        Some(i + 1)
  }

  /** `s.replace(p, "")`: only the first occurrence goes. */
  function RemoveFirst(s: string, p: string): string
    requires p != ""
  {
    match IndexOf(s, p)
    case None => s
    case Some(i) => s[..i] + s[i + |p|..]
  }

  predicate EndsWith(s: string, p: string) {
    |p| <= |s| && s[|s| - |p|..] == p
  }

  predicate StartsWith(s: string, p: string) {
    |p| <= |s| && s[..|p|] == p
  }

  // ---- full ids

  function FullId(id: string, random: string): string {
    id + ['+'] + random
  }

  /** (id, app) of a full id. */
  function ParseFullId(fullId: string): (string, string) {
    var id := Before(fullId, '+');
    (RemoveFirst(id, SCREEN), if EndsWith(id, SCREEN) then "screen" else "default")
  }

  lemma EndOccurs(s: string, p: string)
    requires EndsWith(s, p)
    ensures Occurs(s, p, |s| - |p|)
  {}

  /** A camera publisher or subscriber is recognised exactly when its id has no '+' and no "-screen". */
  lemma DefaultIdRoundTrip(id: string, random: string)
    ensures ParseFullId(FullId(id, random)) == (id, "default") <==> '+' !in id && IndexOf(id, SCREEN) == None
  {
    var b := Before(FullId(id, random), '+');
    if '+' !in id {
      SplitOnceOf(id, '+', random);
      if EndsWith(id, SCREEN) { EndOccurs(id, SCREEN); }
    } else {
      assert forall c :: c in RemoveFirst(b, SCREEN) ==> c in b;
      assert '+' !in RemoveFirst(b, SCREEN);
    }
  }

  lemma NoStraddling(id: string, p: string, i: nat)
    requires i < |id| < i + |p|
    requires forall k :: 0 < k < |p| ==> p[k] != p[0]
    ensures !Occurs(id + p, p, i)
  {
    var s := id + p;
    if i + |p| <= |s| {
      assert s[i..i + |p|][|id| - i] == s[|id|];
      assert s[|id|] == p[0];
    }
  }

  lemma InsideOccurs(id: string, p: string, i: nat)
    requires i + |p| <= |id|
    ensures Occurs(id + p, p, i) <==> Occurs(id, p, i)
  {
    assert (id + p)[i..i + |p|] == id[i..i + |p|];
  }

  /** A word that starts with a character it has only once does not overlap itself. */
  lemma FirstIsSuffix(id: string, p: string)
    requires p != "" && IndexOf(id, p) == None
    requires forall k :: 0 < k < |p| ==> p[k] != p[0]
    ensures IndexOf(id + p, p) == Some(|id|)
  {
    assert (id + p)[|id|..|id| + |p|] == p;
    assert Occurs(id + p, p, |id|);
    forall i: nat | i < |id| ensures !Occurs(id + p, p, i) {
      if i + |p| <= |id| {
        InsideOccurs(id, p, i);
      } else {
        NoStraddling(id, p, i);
      }
    }
    assert IndexOf(id + p, p).Some?;
  }

  lemma SuffixFacts(id: string, p: string)
    requires p != "" && IndexOf(id + p, p) == Some(|id|)
    ensures RemoveFirst(id + p, p) == id && EndsWith(id + p, p)
  {
    var s := id + p;
    assert s[..|id|] == id && s[|id| + |p|..] == [] && s[|s| - |p|..] == p;
    assert id + [] == id;
  }

  lemma ParseOf(id: string, random: string)
    requires '+' !in id
    ensures ParseFullId(FullId(id, random)) ==
            (RemoveFirst(id, SCREEN), if EndsWith(id, SCREEN) then "screen" else "default")
  {
    SplitOnceOf(id, '+', random);
  }

  lemma OneDash()
    ensures forall k :: 0 < k < |SCREEN| ==> SCREEN[k] != SCREEN[0]
    ensures '+' !in SCREEN
  {}

  /** A screen share is recognised as the screen of its id. */
  lemma ScreenIdRoundTrip(id: string, random: string)
    requires '+' !in id && IndexOf(id, SCREEN) == None
    ensures ParseFullId(FullId(id + SCREEN, random)) == (id, "screen")
  {
    OneDash();
    ParseOf(id + SCREEN, random);
    FirstIsSuffix(id, SCREEN);
    SuffixFacts(id, SCREEN);
  }

  // ---- what the page makes of a message

  datatype Reaction =
    | Ignored
    | AnswerOffer(sdp: string)
    | Joined(id: string, fullId: string, app: string)
    | Left(id: string, fullId: string, app: string)

  /** `e.data.split(" ")[1]`. */
  function SecondWord(data: string): Option<string> {
    match SplitOnce(data, ' ')
    case None => None
    case Some((_, tail)) => Some(Before(tail, ' '))
  }

  /** What a subscriber does with a message of the data channel. */
  function React(data: string): Reaction {
    if StartsWith(data, "SDP_OFFER ") then AnswerOffer(data[10..])
    else if StartsWith(data, "PUB_JOIN ") && SecondWord(data).Some? then
      var fullId := SecondWord(data).value;
      Joined(ParseFullId(fullId).0, fullId, ParseFullId(fullId).1)
    else if StartsWith(data, "PUB_LEFT ") && SecondWord(data).Some? then
      var fullId := SecondWord(data).value;
      Left(ParseFullId(fullId).0, fullId, ParseFullId(fullId).1)
    else Ignored
  }

  // ---- the messages of the server

  /** `to_user_msg`. */
  function ToUserMsg(c: Command): string {
    match c
    case PubJoin(user) => "PUB_JOIN" + [' '] + user
    case PubLeft(user) => "PUB_LEFT" + [' '] + user
  }

  function OfferMsg(sdp: string): string {
    "SDP_OFFER " + sdp
  }

  lemma SecondWordOf(head: string, user: string)
    requires ' ' !in head && ' ' !in user
    ensures SecondWord(head + [' '] + user) == Some(user)
  {
    SplitOnceOf(head, ' ', user);
    BeforeWhole(user, ' ');
  }

  lemma StartsWithOf(head: string, tail: string)
    ensures StartsWith(head + tail, head)
  {
    assert (head + tail)[..|head|] == head;
  }

  /** Two prefixes that differ at one place do not both fit. */
  lemma OnlyOnePrefix(s: string, p: string, q: string, i: nat)
    requires StartsWith(s, p) && i < |p| && i < |q| && p[i] != q[i]
    ensures !StartsWith(s, q)
  {
    assert s[..|p|][i] == s[i];
    if |q| <= |s| { assert s[..|q|][i] == s[i]; }
  }

  lemma JoinRoundTrip(user: string)
    requires ' ' !in user
    ensures React("PUB_JOIN" + [' '] + user) == Joined(ParseFullId(user).0, user, ParseFullId(user).1)
  {
    SecondWordOf("PUB_JOIN", user);
    var data := "PUB_JOIN " + user;
    assert data == "PUB_JOIN" + [' '] + user;
    StartsWithOf("PUB_JOIN ", user);
    OnlyOnePrefix(data, "PUB_JOIN ", "SDP_OFFER ", 0);
  }

  lemma LeftRoundTrip(user: string)
    requires ' ' !in user
    ensures React("PUB_LEFT" + [' '] + user) == Left(ParseFullId(user).0, user, ParseFullId(user).1)
  {
    SecondWordOf("PUB_LEFT", user);
    var data := "PUB_LEFT " + user;
    assert data == "PUB_LEFT" + [' '] + user;
    StartsWithOf("PUB_LEFT ", user);
    OnlyOnePrefix(data, "PUB_LEFT ", "SDP_OFFER ", 0);
    OnlyOnePrefix(data, "PUB_LEFT ", "PUB_JOIN ", 4);
  }

  /** Notifications reach the page as they were meant: who joined or left, and with which app. */
  lemma NotificationRoundTrip(c: Command)
    requires ' ' !in c.user
    ensures
      var (id, app) := ParseFullId(c.user);
      React(ToUserMsg(c)) == if c.PubJoin? then Joined(id, c.user, app) else Left(id, c.user, app)
  {
    match c
    case PubJoin(user) => JoinRoundTrip(user);
    case PubLeft(user) => LeftRoundTrip(user);
  }

  /** Offers are answered whatever they contain. */
  lemma OfferRoundTrip(sdp: string)
    ensures React(OfferMsg(sdp)) == AnswerOffer(sdp)
  {
    assert OfferMsg(sdp)[..10] == "SDP_OFFER ";
    assert OfferMsg(sdp)[10..] == sdp;
  }

  // ---- from the page of a publisher to the page of a subscriber

  /** An id without a separator of the protocol. */
  predicate PlainId(id: string) {
    '+' !in id && ' ' !in id && IndexOf(id, SCREEN) == None
  }

  lemma NoSpaces(id: string, random: string)
    requires ' ' !in id && ' ' !in random
    ensures ' ' !in FullId(id, random) && ' ' !in FullId(id + SCREEN, random)
  {}

  /** A camera's full id, announced by the server in either command, is shown as the camera of its id. */
  lemma CameraIsRecognised(id: string, random: string)
    requires PlainId(id) && ' ' !in random
    ensures
      var fullId := FullId(id, random);
      && React(ToUserMsg(PubJoin(fullId))) == Joined(id, fullId, "default")
      && React(ToUserMsg(PubLeft(fullId))) == Left(id, fullId, "default")
  {
    NoSpaces(id, random);
    DefaultIdRoundTrip(id, random);
    NotificationRoundTrip(PubJoin(FullId(id, random)));
    NotificationRoundTrip(PubLeft(FullId(id, random)));
  }

  /** A screen share's full id is shown as the screen of the id it was started with. */
  lemma ScreenIsRecognised(id: string, random: string)
    requires PlainId(id) && ' ' !in random
    ensures
      var fullId := FullId(id + SCREEN, random);
      && React(ToUserMsg(PubJoin(fullId))) == Joined(id, fullId, "screen")
      && React(ToUserMsg(PubLeft(fullId))) == Left(id, fullId, "screen")
  {
    NoSpaces(id, random);
    ScreenIdRoundTrip(id, random);
    NotificationRoundTrip(PubJoin(FullId(id + SCREEN, random)));
    NotificationRoundTrip(PubLeft(FullId(id + SCREEN, random)));
  }

  lemma ScreenIsNotPlain(id: string)
    requires PlainId(id)
    ensures !PlainId(id + SCREEN)
  {
    OneDash();
    FirstIsSuffix(id, SCREEN);
  }

  /** The page and the server mean the same: a page's own camera and its own screen share are what the server keeps
      from its subscription, and no other plain id's camera or screen is. */
  lemma EchoOfPageExactly(id: string, random: string, other: string, random': string)
    requires PlainId(id) && PlainId(other)
    ensures Naming.IsEcho(FullId(id, random), FullId(other, random')) <==> id == other
    ensures Naming.IsEcho(FullId(id + SCREEN, random), FullId(other, random')) <==> id == other
  {
    OneDash();
    Naming.IsEchoExactly(id, random, other, random');
    Naming.IsEchoExactly(id + SCREEN, random, other, random');
    assert FullId(id, random) == id + "+" + random && FullId(other, random') == other + "+" + random';
    assert FullId(id + SCREEN, random) == id + SCREEN + "+" + random;
    ScreenIsNotPlain(other);
    ScreenIsNotPlain(id);
    if id + SCREEN == other + "-screen" {
      assert id == (id + SCREEN)[..|id|] && |id| == |other|;
    }
  }

  /** Everything but offers and notifications is ignored. */
  lemma IgnoredExactly(data: string)
    ensures React(data) == Ignored <==>
            !StartsWith(data, "SDP_OFFER ") && !StartsWith(data, "PUB_JOIN ") && !StartsWith(data, "PUB_LEFT ")
  {
    if StartsWith(data, "PUB_JOIN ") || StartsWith(data, "PUB_LEFT ") {
      assert data[..9][8] == ' ' && data[8] == ' ';
    }
  }

  // ---- what the page sends back

  function AnswerMsg(sdp: string): string {
    "SDP_ANSWER " + sdp
  }

  datatype ServerReaction = SetAnswer(sdp: string) | CloseConnection | ReplyOk

  /** `on_data_channel_msg`. */
  function ServerReact(msg: string): ServerReaction {
    if StartsWith(msg, "SDP_ANSWER ") then
      match SplitOnce(msg, ' ')
      case None => ReplyOk
      case Some((_, answer)) => SetAnswer(answer)
    else if msg == "STOP" then CloseConnection
    else ReplyOk
  }

  /** An answer reaches the server whole, and nothing else is taken for one. */
  lemma AnswerExactly(msg: string, sdp: string)
    ensures ServerReact(msg) == SetAnswer(sdp) <==> msg == AnswerMsg(sdp)
    ensures ServerReact(msg) == CloseConnection <==> msg == "STOP"
  {
    SplitOnceOf("SDP_ANSWER", ' ', sdp);
    assert AnswerMsg(sdp) == "SDP_ANSWER" + [' '] + sdp;
    StartsWithOf("SDP_ANSWER ", sdp);
    if StartsWith(msg, "SDP_ANSWER ") {
      var rest := msg[11..];
      assert msg == "SDP_ANSWER" + [' '] + rest;
      SplitOnceOf("SDP_ANSWER", ' ', rest);
      assert msg[0] == 'S' && msg[1] == 'D';
    }
  }

  // ---- sharing the screen more than once

  function Repeated(p: string, n: nat): string {
    if n == 0 then "" else p + Repeated(p, n - 1)
  }

  lemma {:induction false} RepeatedFacts(n: nat)
    ensures Repeated(SCREEN, n) + SCREEN == SCREEN + Repeated(SCREEN, n)
    ensures |Repeated(SCREEN, n)| == 7 * n && '+' !in Repeated(SCREEN, n) && ' ' !in Repeated(SCREEN, n)
  {
    if n > 0 {
      RepeatedFacts(n - 1);
      var r := Repeated(SCREEN, n - 1);
      assert SCREEN + r + SCREEN == SCREEN + (r + SCREEN);
    }
  }

  /** Also with more after it, the first occurrence of such a word is the appended one. */
  lemma FirstAppended(id: string, p: string, tail: string)
    requires p != "" && IndexOf(id, p) == None
    requires forall k :: 0 < k < |p| ==> p[k] != p[0]
    ensures RemoveFirst(id + p + tail, p) == id + tail
  {
    var s := id + p + tail;
    FirstIsSuffix(id, p);
    forall i: nat | i < |id| ensures !Occurs(s, p, i) {
      assert !Occurs(id + p, p, i);
      assert s[i..i + |p|] == (id + p)[i..i + |p|];
    }
    assert s[|id|..|id| + |p|] == p && Occurs(s, p, |id|);
    assert IndexOf(s, p) == Some(|id|);
    assert s[..|id|] == id && s[|id| + |p|..] == tail;
  }

  /** The id that a page makes of this many screen shares started on one connection object. */
  function ShownId(base: string, shares: nat): string {
    base + Repeated(SCREEN, if shares == 0 then 0 else shares - 1)
  }

  function ShownApp(shares: nat): string {
    if shares == 0 then "default" else "screen"
  }

  lemma SharedIdParts(base: string, shares: nat)
    requires PlainId(base) && shares > 0
    ensures
      var id := base + Repeated(SCREEN, shares);
      && '+' !in id && ' ' !in id && EndsWith(id, SCREEN)
      && RemoveFirst(id, SCREEN) == base + Repeated(SCREEN, shares - 1)
  {
    OneDash();
    RepeatedFacts(shares);
    RepeatedFacts(shares - 1);
    var rest := Repeated(SCREEN, shares - 1);
    var id := base + Repeated(SCREEN, shares);
    assert id == base + SCREEN + rest;
    FirstAppended(base, SCREEN, rest);
    assert id == (base + rest) + SCREEN;
    assert id[|id| - 7..] == SCREEN;
  }

  /** Only the first suffix is taken off again. */
  lemma SharesParsed(base: string, shares: nat, random: string)
    requires PlainId(base) && ' ' !in random
    ensures
      var fullId := FullId(base + Repeated(SCREEN, shares), random);
      ' ' !in fullId && ParseFullId(fullId) == (ShownId(base, shares), ShownApp(shares))
  {
    var id := base + Repeated(SCREEN, shares);
    if shares == 0 {
      assert id == base;
      DefaultIdRoundTrip(base, random);
    } else {
      SharedIdParts(base, shares);
      ParseOf(id, random);
    }
    NoSpaces(id, random);
  }

  lemma SharesShown(base: string, shares: nat, random: string)
    requires PlainId(base) && ' ' !in random
    ensures
      var fullId := FullId(base + Repeated(SCREEN, shares), random);
      React(ToUserMsg(PubJoin(fullId))) == Joined(ShownId(base, shares), fullId, ShownApp(shares))
  {
    SharesParsed(base, shares, random);
    NotificationRoundTrip(PubJoin(FullId(base + Repeated(SCREEN, shares), random)));
  }

  /** What is shown is the id that was set exactly for at most one share. */
  lemma ShownIdExactly(base: string, shares: nat)
    ensures ShownId(base, shares) == base <==> shares <= 1
  {
    RepeatedFacts(if shares == 0 then 0 else shares - 1);
    assert shares <= 1 ==> base + Repeated(SCREEN, 0) == base;
    assert |ShownId(base, shares)| == |base| + |Repeated(SCREEN, if shares == 0 then 0 else shares - 1)|;
  }

  // ---- the page's connection object

  class WeeverPeerConnection {
    var id: string
    var fullId: string
    var role: Option<Role>
    ghost var base: string   // the id that was set
    ghost var shares: nat    // the screen shares started since

    ghost predicate Valid()
      reads this
    {
      id == base + Repeated(SCREEN, shares)
    }

    constructor (id: string)
      ensures Valid() && base == id && shares == 0 && fullId == "" && role == None
    {
      this.id := id;
      fullId := "";
      role := None;
      base, shares := id, 0;
      new;
      assert id + "" == id;
    }

    method SetId(id: string)
      modifies this`id, this`base, this`shares
      ensures Valid() && base == id && shares == 0
    {
      this.id := id;
      base, shares := id, 0;
      assert id + "" == id;
    }

    method Publish()
      modifies this`role
      ensures role == Some(Publisher)
    {
      role := Some(Publisher);
    }

    /** The screen share publishes under its own id. */
    method PublishScreen()
      requires Valid()
      modifies this`role, this`id, this`shares
      ensures Valid() && role == Some(Publisher) && shares == old(shares) + 1
    {
      RepeatedFacts(shares);
      assert base + Repeated(SCREEN, shares) + SCREEN == base + (Repeated(SCREEN, shares) + SCREEN);
      id := id + SCREEN;
      role := Some(Publisher);
      shares := shares + 1;
    }

    method Subscribe()
      modifies this`role
      ensures role == Some(Subscriber)
    {
      role := Some(Subscriber);
    }

    /** All ICE candidates are there: the full id is fixed. Announced to a subscriber's page, it is recognised as
        the id that was set if and only if at most one screen share was started from this object. */
    method OnIceComplete(random: string)
      requires Valid()
      modifies this`fullId
      ensures Valid() && fullId == FullId(id, random)
      ensures PlainId(base) && ' ' !in random ==>
                (React(ToUserMsg(PubJoin(fullId))) == Joined(base, fullId, ShownApp(shares)) <==> shares <= 1)
    {
      fullId := id + "+" + random;
      if PlainId(base) && ' ' !in random {
        SharesShown(base, shares, random);
        ShownIdExactly(base, shares);
      }
    }

    /** Only a subscriber reacts: to an offer with its answer, to a notification with who it is about. */
    method OnMessage(data: string) returns (r: Reaction)
      ensures role != Some(Subscriber) ==> r == Ignored
      ensures role == Some(Subscriber) ==> r == React(data)
      ensures forall sdp :: role == Some(Subscriber) && data == OfferMsg(sdp) ==> r == AnswerOffer(sdp)
      ensures forall c: Command :: role == Some(Subscriber) && data == ToUserMsg(c) && ' ' !in c.user ==>
                r == if c.PubJoin? then Joined(ParseFullId(c.user).0, c.user, ParseFullId(c.user).1)
                     else Left(ParseFullId(c.user).0, c.user, ParseFullId(c.user).1)
    {
      r := Ignored;
      if role == Some(Subscriber) {
        r := React(data);
        forall sdp | data == OfferMsg(sdp) ensures r == AnswerOffer(sdp) {
          OfferRoundTrip(sdp);
        }
        forall c: Command | data == ToUserMsg(c) && ' ' !in c.user
          ensures r == if c.PubJoin? then Joined(ParseFullId(c.user).0, c.user, ParseFullId(c.user).1)
                       else Left(ParseFullId(c.user).0, c.user, ParseFullId(c.user).1)
        {
          NotificationRoundTrip(c);
        }
      }
    }
  }
}
