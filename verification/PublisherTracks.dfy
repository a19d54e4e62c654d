/** The publisher's side of the labels: `on_track` bumps 8-bit counters and mints the app
    id of each stream, while the table only stores how many streams of a kind there are. */
module PublisherTracks {
  import opened Naming
  import opened MediaTable
  import opened Reconciliation

  newtype u8 = x: int | 0 <= x < 256

  function AddOne(x: u8): u8 {
    if x == 255 then 0 else x + 1
  }

  function Count(kinds: seq<string>, kind: string): nat {
    if kinds == [] then 0
    else Count(kinds[..|kinds| - 1], kind) + if kinds[|kinds| - 1] == kind then 1 else 0
  }

  lemma CountStep(kinds: seq<string>, k: string, kind: string)
    ensures Count(kinds + [k], kind) == Count(kinds, kind) + if k == kind then 1 else 0
  {
    assert (kinds + [k])[..|kinds|] == kinds;
  }

  /** The app ids minted for the tracks of one connection, in order. */
  function Minted(kinds: seq<string>): (ids: seq<string>)
    ensures |ids| == |kinds|
  {
    if kinds == [] then []
    else
      var before := kinds[..|kinds| - 1];
      var kind := kinds[|kinds| - 1];
      Minted(before) + [Label(kind, Count(before, kind) % 256)]
  }

  lemma MintedStep(kinds: seq<string>, kind: string)
    ensures Minted(kinds + [kind]) == Minted(kinds) + [Label(kind, Count(kinds, kind) % 256)]
  {
    assert (kinds + [kind])[..|kinds|] == kinds;
  }

  lemma AddOneWraps(x: u8, n: nat)
    requires x as int == n % 256
    ensures AddOne(x) as int == (n + 1) % 256
  {}

  /** One track bumps the counter of its own kind. */
  lemma CountersStep(kinds: seq<string>, kind: string, video: u8, audio: u8)
    requires IsKind(kind)
    requires video as int == Count(kinds, VIDEO) % 256 && audio as int == Count(kinds, AUDIO) % 256
    ensures (if kind == VIDEO then AddOne(video) else video) as int == Count(kinds + [kind], VIDEO) % 256
    ensures (if kind == VIDEO then audio else AddOne(audio)) as int == Count(kinds + [kind], AUDIO) % 256
  {
    CountStep(kinds, kind, VIDEO);
    CountStep(kinds, kind, AUDIO);
    if kind == VIDEO {
      AddOneWraps(video, Count(kinds, VIDEO));
    } else {
      AddOneWraps(audio, Count(kinds, AUDIO));
    }
  }

  /** What one callback comes to: the app id it mints and whether it announces the publisher, or a panic
      where `fetch_add(1) + 1` overflows in a build that checks it. */
  datatype Callback = Counted(appId: string, ready: bool) | Panicked

  /** The state captured by the on_track closure of one connection. */
  class Counters {
    const checked: bool
    var trackCount: u8
    var videoCount: u8
    var audioCount: u8
    ghost var kinds: seq<string>    // the kinds of the tracks that got an app id
    ghost var minted: seq<string>
    ghost var panics: nat           // the callbacks that panicked

    ghost predicate Valid()
      reads this
    {
      && trackCount as int == (|kinds| + panics) % 256
      && videoCount as int == Count(kinds, VIDEO) % 256
      && audioCount as int == Count(kinds, AUDIO) % 256
      && minted == Minted(kinds)
      && (!checked ==> panics == 0)
    }

    constructor (checked: bool)
      ensures Valid() && kinds == [] && panics == 0 && this.checked == checked
    {
      this.checked := checked;
      trackCount, videoCount, audioCount := 0, 0, 0;
      kinds, minted, panics := [], [], 0;
    }

    /** The index of the next track of the kind, and one more of it. */
    method NextIndex(kind: string) returns (index: u8)
      requires Valid() && IsKind(kind)
      modifies this`videoCount, this`audioCount
      ensures index as int == Count(kinds, kind) % 256
      ensures videoCount as int == Count(kinds + [kind], VIDEO) % 256
      ensures audioCount as int == Count(kinds + [kind], AUDIO) % 256
    {
      CountersStep(kinds, kind, videoCount, audioCount);
      if kind == VIDEO {
        index := videoCount;
        videoCount := AddOne(videoCount);
      } else {
        index := audioCount;
        audioCount := AddOne(audioCount);
      }
    }

    /** One callback. The 256th track panics or, unchecked, counts as none; so do its multiples. */
    method OnTrack(kind: string, transceivers: nat) returns (r: Callback)
      requires Valid() && IsKind(kind)
      modifies this
      ensures Valid()
      ensures r.Panicked? <==> checked && (old(|kinds| + panics) + 1) % 256 == 0
      ensures r.Panicked? ==> kinds == old(kinds) && minted == old(minted) && panics == old(panics) + 1
      ensures r.Counted? ==> kinds == old(kinds) + [kind] && minted == old(minted) + [r.appId] && panics == old(panics)
      ensures r.Counted? ==> (r.ready <==> (|kinds| + panics) % 256 >= transceivers)
    {
      AddOneWraps(trackCount, |kinds| + panics);
      var count := AddOne(trackCount);
      if checked && count == 0 {
        trackCount, panics := count, panics + 1;
        return Panicked;
      }
      MintedStep(kinds, kind);
      var index := NextIndex(kind);
      trackCount := count;
      var appId := Label(kind, index as int);
      kinds := kinds + [kind];
      minted := minted + [appId];
      return Counted(appId, trackCount as int >= transceivers);
    }
  }

  ghost predicate AllKinds(kinds: seq<string>) {
    forall i :: 0 <= i < |kinds| ==> IsKind(kinds[i])
  }

  /** What the table says after these tracks. */
  function Increments(room: string, user: string, kinds: seq<string>): (log: seq<Change>)
    ensures |log| == |kinds|
    ensures forall i :: 0 <= i < |log| ==> log[i] == Increment(room, user, kinds[i])
  {
    if kinds == [] then []
    else Increments(room, user, kinds[..|kinds| - 1]) + [Increment(room, user, kinds[|kinds| - 1])]
  }

  lemma {:induction false} StoredCounts(room: string, user: string, kinds: seq<string>, row: Row)
    ensures
      var m := Replay(Increments(room, user, kinds), room);
      if row.user == user && Count(kinds, row.kind) > 0
      then row in m && m[row] == Count(kinds, row.kind)
      else row !in m
  {
    if kinds != [] {
      var before, kind := kinds[..|kinds| - 1], kinds[|kinds| - 1];
      StoredCounts(room, user, before, row);
      ReplayStep(Increments(room, user, before), Increment(room, user, kind), room);
    }
  }

  /** Each minted id is the label of an index below the count, taken modulo 256. */
  lemma {:induction false} MintedIsLabel(kinds: seq<string>, i: nat) returns (j: nat)
    requires i < |kinds|
    ensures Minted(kinds)[i] == Label(kinds[i], j % 256) && j < Count(kinds, kinds[i])
  {
    var before := kinds[..|kinds| - 1];
    if i == |kinds| - 1 {
      j := Count(before, kinds[i]);
    } else {
      assert before[i] == kinds[i];
      j := MintedIsLabel(before, i);
    }
  }

  lemma {:induction false} LabelIsMinted(kinds: seq<string>, kind: string, j: nat)
    requires j < Count(kinds, kind)
    ensures Label(kind, j % 256) in Minted(kinds)
  {
    var before := kinds[..|kinds| - 1];
    if j < Count(before, kind) {
      LabelIsMinted(before, kind, j);
    } else {
      assert Minted(kinds)[|before|] == Label(kind, j % 256);
    }
  }

  /** The streams the publisher sends. */
  ghost function Sent(user: string, kinds: seq<string>): set<Key> {
    set i | 0 <= i < |kinds| :: Key(user, Minted(kinds)[i])
  }

  predicate AtMost(kinds: seq<string>, n: nat) {
    Count(kinds, VIDEO) <= n && Count(kinds, AUDIO) <= n
  }

  lemma SentIsExpected(room: string, user: string, kinds: seq<string>, sub: string, i: nat, j: nat)
    requires AllKinds(kinds) && !IsEcho(user, sub) && i < |kinds| && j < Count(kinds, kinds[i])
    ensures Key(user, Label(kinds[i], j % 256)) in Expected(Replay(Increments(room, user, kinds), room), sub)
  {
    var m, row := Replay(Increments(room, user, kinds), room), Row(user, kinds[i]);
    StoredCounts(room, user, kinds, row);
    assert j % 256 < m[row];
  }

  lemma SentAreExpected(room: string, user: string, kinds: seq<string>, sub: string)
    requires AllKinds(kinds) && !IsEcho(user, sub)
    ensures Sent(user, kinds) <= Expected(Replay(Increments(room, user, kinds), room), sub)
  {
    forall k | k in Sent(user, kinds) ensures k in Expected(Replay(Increments(room, user, kinds), room), sub) {
      var i :| 0 <= i < |kinds| && k == Key(user, Minted(kinds)[i]);
      var j := MintedIsLabel(kinds, i);
      SentIsExpected(room, user, kinds, sub, i, j);
    }
  }

  lemma LabelIsSent(user: string, kinds: seq<string>, kind: string, j: nat)
    requires Count(kinds, kind) <= 256 && j < Count(kinds, kind)
    ensures Key(user, Label(kind, j)) in Sent(user, kinds)
  {
    LabelIsMinted(kinds, kind, j);
    assert j % 256 == j;
  }

  lemma {:induction false} CountOfOther(kinds: seq<string>, kind: string)
    requires AllKinds(kinds)
    ensures !IsKind(kind) ==> Count(kinds, kind) == 0
  {
    if kinds != [] {
      CountOfOther(kinds[..|kinds| - 1], kind);
    }
  }

  lemma ExpectedAreSent(room: string, user: string, kinds: seq<string>, sub: string)
    requires AtMost(kinds, 256) && AllKinds(kinds)
    ensures Expected(Replay(Increments(room, user, kinds), room), sub) <= Sent(user, kinds)
  {
    var m := Replay(Increments(room, user, kinds), room);
    forall row, j | row in m && !IsEcho(row.user, sub) && 0 <= j < m[row]
      ensures Key(row.user, Label(row.kind, j)) in Sent(user, kinds)
    {
      StoredCounts(room, user, kinds, row);
      CountOfOther(kinds, row.kind);
      LabelIsSent(user, kinds, row.kind, j);
    }
  }

  lemma WrappedIsMissing(room: string, user: string, kinds: seq<string>, sub: string, kind: string)
    requires AllKinds(kinds) && !IsEcho(user, sub) && IsKind(kind) && Count(kinds, kind) > 256
    ensures Key(user, Label(kind, 256)) in Expected(Replay(Increments(room, user, kinds), room), sub)
    ensures Key(user, Label(kind, 256)) !in Sent(user, kinds)
  {
    StoredCounts(room, user, kinds, Row(user, kind));
    assert 256 < Replay(Increments(room, user, kinds), room)[Row(user, kind)];
    forall i | 0 <= i < |kinds| ensures Minted(kinds)[i] != Label(kind, 256) {
      var j := MintedIsLabel(kinds, i);
      if Minted(kinds)[i] == Label(kind, 256) {
        LabelInjective(kinds[i], j % 256, kind, 256);
      }
    }
  }

  /** Publisher and subscriber agree on the labels exactly as long as no counter has wrapped:
      the streams the publisher sends are those every other user expects from the table. */
  lemma LabelsAgree(room: string, user: string, kinds: seq<string>, sub: string)
    requires AllKinds(kinds) && !IsEcho(user, sub)
    ensures Sent(user, kinds) == Expected(Replay(Increments(room, user, kinds), room), sub) <==> AtMost(kinds, 256)
  {
    SentAreExpected(room, user, kinds, sub);
    if AtMost(kinds, 256) {
      ExpectedAreSent(room, user, kinds, sub);
    } else {
      var kind := if Count(kinds, VIDEO) > 256 then VIDEO else AUDIO;
      WrappedIsMissing(room, user, kinds, sub, kind);
    }
  }
}
