/** NATS subjects: which subscription receives which message. */
module Routing {
  import opened Text
  import opened Naming

  const CMD_PATTERN := "cmd.*"

  /** `cmd.ROOM`. */
  function CmdSubject(room: string): string {
    "cmd" + "." + room
  }

  /** `rtc.ROOM.USER.KIND.APP`, the same string on the publishing and the subscribing side. */
  function RtpSubject(room: string, user: string, kind: string, app: string): string {
    "rtc." + room + "." + user + "." + kind + "." + app
  }

  // ---- subject matching

  /** The '.'-separated tokens. */
  function Tokens(s: string): (ts: seq<string>)
    ensures ts != [] && (|ts| == 1 <==> '.' !in s)
    decreases |s|
  {
    match SplitOnce(s, '.')
    case None => [s]
    case Some((head, tail)) => [head] + Tokens(tail)
  }

  /** '*' stands for one token, a final '>' for one or more; a '>' elsewhere makes the subscription invalid. */
  predicate MatchTokens(pattern: seq<string>, subject: seq<string>) {
    if pattern == [] then subject == []
    else if pattern[0] == ">" then |pattern| == 1 && subject != []
    else subject != [] && (pattern[0] == "*" || pattern[0] == subject[0]) && MatchTokens(pattern[1..], subject[1..])
  }

  predicate IsSpace(c: char) {
    c == ' ' || c == '\t' || c == '\r' || c == '\n'
  }

  /** Not empty and without white space. */
  predicate IsWord(t: string) {
    t != "" && forall c :: c in t ==> !IsSpace(c)
  }

  predicate AreWords(ts: seq<string>) {
    forall i :: 0 <= i < |ts| ==> IsWord(ts[i])
  }

  /** The bus refuses to subscribe to anything else and matches nothing else. */
  predicate IsSubject(s: string) {
    AreWords(Tokens(s))
  }

  predicate Receives(pattern: string, subject: string) {
    IsSubject(pattern) && IsSubject(subject) && MatchTokens(Tokens(pattern), Tokens(subject))
  }

  predicate NoWildcards(ts: seq<string>) {
    forall t :: t in ts ==> t != "*" && t != ">"
  }

  /** Every token is a word and no wildcard. */
  predicate Plain(s: string) {
    IsSubject(s) && NoWildcards(Tokens(s))
  }

  lemma TokensOne(s: string)
    requires '.' !in s
    ensures Tokens(s) == [s]
  {}

  lemma TokensCons(head: string, tail: string)
    requires '.' !in head
    ensures Tokens(head + "." + tail) == [head] + Tokens(tail)
  {
    SplitOnceOf(head, '.', tail);
    assert head + "." + tail == head + ['.'] + tail;
  }

  lemma {:induction false} TokensAppend(x: string, y: string)
    ensures Tokens(x + "." + y) == Tokens(x) + Tokens(y)
    decreases |x|
  {
    match SplitOnce(x, '.')
    case None => TokensCons(x, y);
    case Some((head, tail)) =>
      assert x == head + "." + tail;
      assert x + "." + y == head + "." + (tail + "." + y);
      TokensCons(head, tail + "." + y);
      TokensAppend(tail, y);
      assert [head] + (Tokens(tail) + Tokens(y)) == ([head] + Tokens(tail)) + Tokens(y);
  }

  /** Subjects are determined by their tokens. */
  lemma {:induction false} TokensInjective(s: string, t: string)
    requires Tokens(s) == Tokens(t)
    ensures s == t
    decreases |s|
  {
    match (SplitOnce(s, '.'), SplitOnce(t, '.'))
    case (Some((h1, t1)), Some((h2, t2))) =>
      assert Tokens(s)[0] == h1 && Tokens(t)[0] == h2;
      assert Tokens(s)[1..] == Tokens(t1) && Tokens(t)[1..] == Tokens(t2);
      TokensInjective(t1, t2);
    case _ =>
  }

  lemma {:induction false} LiteralTokens(pattern: seq<string>, subject: seq<string>)
    requires forall t :: t in pattern ==> t != "*" && t != ">"
    ensures MatchTokens(pattern, subject) <==> pattern == subject
  {
    if pattern != [] && subject != [] {
      assert pattern[0] in pattern && forall t :: t in pattern[1..] ==> t in pattern;
      LiteralTokens(pattern[1..], subject[1..]);
      assert pattern == [pattern[0]] + pattern[1..] && subject == [subject[0]] + subject[1..];
    }
  }

  /** A valid subscription without wildcards receives its own subject and nothing else. */
  lemma LiteralSubscription(pattern: string, subject: string)
    requires Plain(pattern)
    ensures Receives(pattern, subject) <==> pattern == subject
  {
    LiteralTokens(Tokens(pattern), Tokens(subject));
    if Tokens(pattern) == Tokens(subject) {
      TokensInjective(pattern, subject);
    }
  }

  /** The pattern and the subject differ only where the pattern has a '*'. */
  predicate Loose(pattern: seq<string>, subject: seq<string>) {
    && |pattern| == |subject|
    && forall i :: 0 <= i < |pattern| ==> pattern[i] != ">" && (pattern[i] == "*" || pattern[i] == subject[i])
  }

  lemma LooseAppend(p: seq<string>, s: seq<string>, q: seq<string>, t: seq<string>)
    requires Loose(p, s) && Loose(q, t)
    ensures Loose(p + q, s + t)
  {}

  lemma {:induction false} LooseMatches(pattern: seq<string>, subject: seq<string>)
    requires Loose(pattern, subject)
    ensures MatchTokens(pattern, subject)
  {
    if pattern != [] {
      LooseMatches(pattern[1..], subject[1..]);
    }
  }

  lemma {:induction false} MisplacedWildcard(front: seq<string>, back: seq<string>, subject: seq<string>)
    requires ">" in front && back != []
    ensures !MatchTokens(front + back, subject)
  {
    assert (front + back)[0] == front[0] && (front + back)[1..] == front[1..] + back;
    if front[0] != ">" && subject != [] {
      MisplacedWildcard(front[1..], back, subject[1..]);
    }
  }

  // ---- subjects from tokens

  function Join(ts: seq<string>): string
    requires ts != []
  {
    if |ts| == 1 then ts[0] else ts[0] + "." + Join(ts[1..])
  }

  lemma {:induction false} TokensOfJoin(ts: seq<string>)
    requires ts != [] && forall t :: t in ts ==> '.' !in t
    ensures Tokens(Join(ts)) == ts
  {
    assert ts[0] in ts && forall t :: t in ts[1..] ==> t in ts;
    if |ts| == 1 {
      TokensOne(ts[0]);
      assert ts == [ts[0]];
    } else {
      assert ts == [ts[0]] + ts[1..];
      TokensOfJoin(ts[1..]);
      TokensCons(ts[0], Join(ts[1..]));
    }
  }

  lemma {:induction false} TokensHaveNoDot(s: string)
    ensures forall t :: t in Tokens(s) ==> '.' !in t
    decreases |s|
  {
    match SplitOnce(s, '.')
    case None =>
    case Some((_, tail)) => TokensHaveNoDot(tail);
  }

  // ---- commands

  /** The room of a command is what follows the first '.' of its subject. */
  lemma RoomOfCommand(room: string)
    ensures SplitOnce(CmdSubject(room), '.') == Some(("cmd", room))
  {
    SplitOnceOf("cmd", '.', room);
    assert CmdSubject(room) == "cmd" + ['.'] + room;
  }

  lemma CmdTokens(room: string)
    ensures Tokens(CmdSubject(room)) == ["cmd"] + Tokens(room)
  {
    TokensCons("cmd", room);
  }

  lemma CmdPatternTokens()
    ensures Tokens(CMD_PATTERN) == ["cmd", "*"]
  {
    CmdTokens("*");
    TokensOne("*");
    assert CMD_PATTERN == CmdSubject("*");
  }

  lemma StarMatchesOne(ts: seq<string>)
    requires ts != []
    ensures MatchTokens(["cmd", "*"], ts) <==> |ts| == 2 && ts[0] == "cmd"
  {
    assert ["cmd", "*"][1..] == ["*"] && ["*"][1..] == [];
    assert MatchTokens(["cmd", "*"], ts) <==> ts[0] == "cmd" && MatchTokens(["*"], ts[1..]);
    assert MatchTokens(["*"], ts[1..]) <==> |ts| > 1 && MatchTokens([], ts[1..][1..]);
  }

  /** One valid token of a subject. */
  predicate IsToken(t: string) {
    '.' !in t && IsWord(t)
  }

  /** The instances hear the commands of a room exactly when its name is one token. */
  lemma CommandsAreHeard(room: string)
    ensures Receives(CMD_PATTERN, CmdSubject(room)) <==> IsToken(room)
  {
    CmdPatternTokens();
    CmdTokens(room);
    var ts := Tokens(CmdSubject(room));
    StarMatchesOne(ts);
    assert IsWord("cmd") && IsWord("*");
    if '.' !in room {
      TokensOne(room);
      assert ts[1] == room;
    }
  }

  // ---- media

  lemma RtpTokens(room: string, user: string, kind: string, app: string)
    ensures Tokens(RtpSubject(room, user, kind, app)) ==
            ["rtc"] + Tokens(room) + Tokens(user) + Tokens(kind) + Tokens(app)
  {
    TokensOne("rtc");
    assert RtpSubject(room, user, kind, app) == (((("rtc" + "." + room) + "." + user) + "." + kind) + "." + app);
    TokensAppend((("rtc" + "." + room) + "." + user) + "." + kind, app);
    TokensAppend(("rtc" + "." + room) + "." + user, kind);
    TokensAppend("rtc" + "." + room, user);
    TokensAppend("rtc", room);
  }

  /** No media packet is ever taken for a command. */
  lemma MediaIsNoCommand(room: string, user: string, kind: string, app: string)
    ensures !Receives(CMD_PATTERN, RtpSubject(room, user, kind, app))
  {
    CmdPatternTokens();
    RtpTokens(room, user, kind, app);
    StarMatchesOne(Tokens(RtpSubject(room, user, kind, app)));
  }

  /** The media subject determines its parts, even for a user with dots. */
  lemma RtpSubjectInjective(room: string, user: string, kind: string, app: string,
                            room': string, user': string, kind': string, app': string)
    requires '.' !in room && '.' !in room' && '.' !in kind && '.' !in kind' && '.' !in app && '.' !in app'
    requires RtpSubject(room, user, kind, app) == RtpSubject(room', user', kind', app')
    ensures room == room' && user == user' && kind == kind' && app == app'
  {
    var s := RtpSubject(room, user, kind, app);
    var x, y := user + "." + kind, user' + "." + kind';
    assert s[4..] == room + ['.'] + (x + ['.'] + app);
    assert s[4..] == room' + ['.'] + (y + ['.'] + app');
    SplitOnceOf(room, '.', x + ['.'] + app);
    SplitOnceOf(room', '.', y + ['.'] + app');
    SameTail(x, app, y, app', '.');
    SameTail(user, kind, user', kind', '.');
  }

  lemma LabelIsToken(kind: string, i: nat)
    requires IsKind(kind)
    ensures IsToken(Label(kind, i)) && |Label(kind, i)| > 1
  {
    assert forall k :: 0 <= k < |Decimal(i)| ==> Decimal(i)[k] != '.' && !IsSpace(Decimal(i)[k]);
  }

  /** A token longer than a wildcard is plain. */
  lemma LongTokenIsPlain(t: string)
    requires IsToken(t) && |t| > 1
    ensures Tokens(t) == [t] && Plain(t)
  {
    TokensOne(t);
  }

  lemma LabelIsPlain(kind: string, i: nat)
    requires IsKind(kind)
    ensures '.' !in Label(kind, i) && Plain(Label(kind, i)) && Plain(kind)
    ensures Tokens(kind) == [kind] && Tokens(Label(kind, i)) == [Label(kind, i)]
  {
    LabelIsToken(kind, i);
    LongTokenIsPlain(Label(kind, i));
    LongTokenIsPlain(kind);
  }

  lemma WordsAppend(ts: seq<string>, us: seq<string>)
    requires AreWords(ts) && AreWords(us)
    ensures AreWords(ts + us)
  {}

  lemma FiveWords(a: seq<string>, b: seq<string>, c: seq<string>, d: seq<string>, e: seq<string>)
    requires AreWords(a) && AreWords(b) && AreWords(c) && AreWords(d) && AreWords(e)
    ensures AreWords(a + b + c + d + e)
  {
    WordsAppend(a, b);
    WordsAppend(a + b, c);
    WordsAppend(a + b + c, d);
    WordsAppend(a + b + c + d, e);
  }

  lemma RtcIsWord()
    ensures AreWords(["rtc"])
  {}

  lemma RtpIsSubject(room: string, user: string, kind: string, app: string)
    requires IsSubject(room) && IsSubject(user) && IsSubject(kind) && IsSubject(app)
    ensures IsSubject(RtpSubject(room, user, kind, app))
  {
    RtpTokens(room, user, kind, app);
    RtcIsWord();
    FiveWords(["rtc"], Tokens(room), Tokens(user), Tokens(kind), Tokens(app));
  }

  lemma RtpIsPlain(room: string, user: string, kind: string, app: string)
    requires Plain(room) && Plain(user) && Plain(kind) && Plain(app)
    ensures Plain(RtpSubject(room, user, kind, app))
  {
    RtpIsSubject(room, user, kind, app);
    RtpTokens(room, user, kind, app);
    assert NoWildcards(["rtc"] + Tokens(room));
    assert NoWildcards(["rtc"] + Tokens(room) + Tokens(user));
    assert NoWildcards(["rtc"] + Tokens(room) + Tokens(user) + Tokens(kind));
  }

  /** Exact media routing: a forward task subscribed for one stream receives exactly the packets
      published for that room, user and label. */
  lemma ExactRouting(room: string, user: string, kind: string, i: nat,
                     room': string, user': string, kind': string, i': nat)
    requires '.' !in room && '.' !in room' && IsKind(kind) && IsKind(kind')
    requires Plain(room) && Plain(user)
    ensures Receives(RtpSubject(room, user, kind, Label(kind, i)), RtpSubject(room', user', kind', Label(kind', i')))
            <==> room == room' && user == user' && kind == kind' && i == i'
  {
    var app, app' := Label(kind, i), Label(kind', i');
    var pattern, subject := RtpSubject(room, user, kind, app), RtpSubject(room', user', kind', app');
    LabelIsPlain(kind, i);
    LabelIsPlain(kind', i');
    RtpIsPlain(room, user, kind, app);
    LiteralSubscription(pattern, subject);
    if pattern == subject {
      RtpSubjectInjective(room, user, kind, app, room', user', kind', app');
      LabelInjective(kind, i, kind', i');
    }
  }

  /** The subjects, written out. */
  lemma SubjectTexts(room: string, user: string, app: string)
    ensures CmdSubject(room) == "cmd." + room && CMD_PATTERN == "cmd.*"
    ensures RtpSubject(room, user, VIDEO, app) == "rtc." + room + "." + user + ".video." + app
    ensures RtpSubject(room, user, AUDIO, app) == "rtc." + room + "." + user + ".audio." + app
  {
    assert "cmd" + "." == "cmd.";
    assert ".video." == "." + "video" + "." && ".audio." == "." + "audio" + ".";
  }

  // ---- exactly when routing is exact

  /** The forward task of this stream receives the packets of this stream and no others. */
  ghost predicate RoutesExactly(room: string, user: string, kind: string, i: nat) {
    forall room', user', kind', i': nat :: '.' !in room' && IsKind(kind') ==>
      (Receives(RtpSubject(room, user, kind, Label(kind, i)), RtpSubject(room', user', kind', Label(kind', i')))
       <==> room == room' && user == user' && kind == kind' && i == i')
  }

  function RtpPattern(room: string, user: string, kind: string, i: nat): seq<string> {
    ["rtc"] + Tokens(room) + Tokens(user) + [kind] + [Label(kind, i)]
  }

  lemma RtpPatternTokens(room: string, user: string, kind: string, i: nat)
    requires IsKind(kind)
    ensures Tokens(RtpSubject(room, user, kind, Label(kind, i))) == RtpPattern(room, user, kind, i)
  {
    LabelIsPlain(kind, i);
    RtpTokens(room, user, kind, Label(kind, i));
  }

  lemma InMiddle(a: seq<string>, b: seq<string>, c: seq<string>, d: seq<string>, t: string)
    requires t in b || t in c
    ensures t in a + b + c && t in a + b + c + d
  {
    assert t in b + c;
    assert a + b + c == a + (b + c);
  }

  /** With an invalid token or a '>' in the room or the user, the task does not even receive its own packets. */
  lemma InvalidSubscription(room: string, user: string, kind: string, i: nat, t: string)
    requires IsKind(kind) && (t in Tokens(room) || t in Tokens(user)) && (!IsWord(t) || t == ">")
    ensures var own := RtpSubject(room, user, kind, Label(kind, i)); !Receives(own, own)
  {
    RtpPatternTokens(room, user, kind, i);
    InMiddle(["rtc"], Tokens(room), Tokens(user), [kind] + [Label(kind, i)], t);
    var front, back := ["rtc"] + Tokens(room) + Tokens(user), [kind] + [Label(kind, i)];
    assert RtpPattern(room, user, kind, i) == front + back;
    if t == ">" {
      MisplacedWildcard(front, back, front + back);
    }
  }

  /** Streams whose subjects differ only where the pattern has a '*' are all received. */
  lemma LooseNames(room: string, user: string, room': string, user': string, kind: string, i: nat)
    requires IsKind(kind) && Loose(Tokens(room), Tokens(room')) && Loose(Tokens(user), Tokens(user'))
    requires IsSubject(room) && IsSubject(user) && IsSubject(room') && IsSubject(user')
    ensures Receives(RtpSubject(room, user, kind, Label(kind, i)), RtpSubject(room', user', kind, Label(kind, i)))
  {
    RtpPatternTokens(room, user, kind, i);
    RtpPatternTokens(room', user', kind, i);
    var p, q := ["rtc"] + Tokens(room), ["rtc"] + Tokens(room');
    LooseAppend(["rtc"], ["rtc"], Tokens(room), Tokens(room'));
    LooseAppend(p, q, Tokens(user), Tokens(user'));
    LooseAppend(p + Tokens(user), q + Tokens(user'), [kind], [kind]);
    LooseAppend(p + Tokens(user) + [kind], q + Tokens(user') + [kind], [Label(kind, i)], [Label(kind, i)]);
    LooseMatches(RtpPattern(room, user, kind, i), RtpPattern(room', user', kind, i));
    LabelIsPlain(kind, i);
    RtpIsSubject(room, user, kind, Label(kind, i));
    RtpIsSubject(room', user', kind, Label(kind, i));
  }

  lemma NoArrows(s: string)
    requires ">" !in Tokens(s)
    ensures Loose(Tokens(s), Tokens(s))
  {
    assert forall i :: 0 <= i < |Tokens(s)| ==> Tokens(s)[i] in Tokens(s);
  }

  lemma ForeignUser(user: string) returns (user': string)
    requires IsSubject(user) && ">" !in Tokens(user) && "*" in Tokens(user)
    ensures user' != user && IsSubject(user') && Loose(Tokens(user), Tokens(user'))
  {
    var k :| 0 <= k < |Tokens(user)| && Tokens(user)[k] == "*";
    var ts := Tokens(user)[k := "a"];
    TokensHaveNoDot(user);
    NoArrows(user);
    user' := Join(ts);
    TokensOfJoin(ts);
    assert IsWord("a");
    assert Tokens(user')[k] != Tokens(user)[k];
  }

  /** A '*' in the room or the user takes in another stream. */
  lemma ForeignStream(room: string, user: string, kind: string, i: nat) returns (room': string, user': string)
    requires '.' !in room && IsKind(kind) && ">" !in Tokens(room) && ">" !in Tokens(user)
    requires IsSubject(room) && IsSubject(user)
    requires "*" in Tokens(room) || "*" in Tokens(user)
    ensures '.' !in room' && (room != room' || user != user')
    ensures Receives(RtpSubject(room, user, kind, Label(kind, i)), RtpSubject(room', user', kind, Label(kind, i)))
  {
    room', user' := room, user;
    NoArrows(room);
    NoArrows(user);
    if "*" in Tokens(room) {
      room' := "a";
      TokensOne(room);
      TokensOne("a");
    } else {
      user' := ForeignUser(user);
    }
    LooseNames(room, user, room', user', kind, i);
  }

  /** Exact media routing holds if and only if every token of the room and of the user is a word and no
      wildcard. */
  lemma ExactRoutingCondition(room: string, user: string, kind: string, i: nat)
    requires '.' !in room && IsKind(kind)
    ensures RoutesExactly(room, user, kind, i) <==> Plain(room) && Plain(user)
  {
    var own := RtpSubject(room, user, kind, Label(kind, i));
    if Plain(room) && Plain(user) {
      forall room', user', kind', i': nat | '.' !in room' && IsKind(kind')
        ensures Receives(own, RtpSubject(room', user', kind', Label(kind', i')))
                <==> room == room' && user == user' && kind == kind' && i == i'
      {
        ExactRouting(room, user, kind, i, room', user', kind', i');
      }
    } else if t :| (t in Tokens(room) || t in Tokens(user)) && (!IsWord(t) || t == ">") {
      InvalidSubscription(room, user, kind, i, t);
    } else {
      var room', user' := ForeignStream(room, user, kind, i);
      assert Receives(own, RtpSubject(room', user', kind, Label(kind, i)));
    }
  }
}
