/** The three maps of a subscriber and the run that brings them in line with the media
    table: `update_transceivers_based_on_room` and `spawn_rtp_foward_task`, with every
    early return between the single map writes. */
module SubscriberTracks {
  import opened Naming
  import opened MediaTable
  import opened Reconciliation
  import Renegotiation

  /** The answer of the media table query. */
  datatype TableRead = Table(media: Media) | ReadFailed

  /** For which keys the external calls fail: remove_track, add_track, and the NATS subscription. */
  datatype Faults = Faults(remove: set<Key>, add: set<Key>, subscribe: set<Key>)

  /** `m1` is `m0` with exactly the keys `added` on top. */
  ghost predicate Grown(m0: map<Key, nat>, m1: map<Key, nat>, added: set<Key>) {
    && (forall k :: k in added ==> k !in m0)
    && (forall k :: k in m1 <==> k in m0 || k in added)
    && (forall k :: k in m0 ==> m1[k] == m0[k])
  }

  /** `m1` is `m0` without exactly the keys `gone`. */
  ghost predicate Shrunk(m0: map<Key, nat>, m1: map<Key, nat>, gone: set<Key>) {
    && (forall k :: k in m1 <==> k in m0 && k !in gone)
    && (forall k :: k in m1 ==> m1[k] == m0[k])
  }

  lemma ShrinkFurther(m0: map<Key, nat>, m1: map<Key, nat>, m2: map<Key, nat>, gone: set<Key>, k: Key)
    requires Shrunk(m0, m1, gone) && Shrunk(m1, m2, {k})
    ensures Shrunk(m0, m2, gone + {k})
  {}

  lemma GrowByMany(m0: map<Key, nat>, m1: map<Key, nat>, m2: map<Key, nat>, added: set<Key>, more: set<Key>)
    requires Grown(m0, m1, added) && Grown(m1, m2, more)
    ensures Grown(m0, m2, added + more)
  {}

  lemma GrowFurther(m0: map<Key, nat>, m1: map<Key, nat>, m2: map<Key, nat>, added: set<Key>, k: Key)
    requires Grown(m0, m1, added) && Grown(m1, m2, {k})
    ensures Grown(m0, m2, added + {k})
  {}

  /** The tracks of one row. */
  ghost function RowKeys(row: Row, count: nat): set<Key> {
    set i | 0 <= i < count :: Key(row.user, Label(row.kind, i))
  }

  lemma NextRowKey(row: Row, index: nat, count: nat)
    requires index < count
    ensures RowKeys(row, index + 1) == RowKeys(row, index) + {Key(row.user, Label(row.kind, index))}
    ensures RowKeys(row, index) <= RowKeys(row, count)
    ensures Key(row.user, Label(row.kind, index)) in RowKeys(row, count)
  {}

  lemma MissingOfRow(row: Row, index: nat, count: nat, before: set<Key>, added: set<Key>, k: Key)
    requires index < count && added == RowKeys(row, index) - before
    requires k == Key(row.user, Label(row.kind, index)) && k !in before
    ensures added + {k} <= RowKeys(row, count) - before
    ensures added + {k} == RowKeys(row, index + 1) - before
  {
    NextRowKey(row, index, count);
  }

  /** The tracks that the rows in `rows` ask for. */
  ghost function ExpectedOf(m: Media, sub: string, rows: set<Row>): set<Key> {
    set row, i | row in rows && row in m && !IsEcho(row.user, sub) && 0 <= i < m[row] ::
      Key(row.user, Label(row.kind, i))
  }

  lemma ExpectedOfAll(m: Media, sub: string)
    ensures ExpectedOf(m, sub, m.Keys) == Expected(m, sub)
  {}

  lemma ExpectedOfOneMore(m: Media, sub: string, rows: set<Row>, row: Row)
    requires row in m
    ensures ExpectedOf(m, sub, rows + {row}) ==
            ExpectedOf(m, sub, rows) + if IsEcho(row.user, sub) then {} else RowKeys(row, m[row])
  {}

  /** What one more row adds to the missing tracks of the rows seen so far. */
  lemma OneMoreRow(m: Media, sub: string, seen: set<Row>, row: Row, before: set<Key>, added: set<Key>, more: set<Key>)
    requires row in m && !IsEcho(row.user, sub)
    requires added == ExpectedOf(m, sub, seen) - before
    requires more <= RowKeys(row, m[row]) - (before + added)
    ensures added + more <= Expected(m, sub) - before
    ensures more == RowKeys(row, m[row]) - (before + added) ==>
              added + more == ExpectedOf(m, sub, seen + {row}) - before
  {
    ExpectedOfOneMore(m, sub, seen, row);
  }

  lemma GrownKeys(m0: map<Key, nat>, m1: map<Key, nat>, added: set<Key>)
    requires Grown(m0, m1, added)
    ensures m1.Keys == m0.Keys + added
  {}

  lemma ShrunkKeys(m0: map<Key, nat>, m1: map<Key, nat>, gone: set<Key>)
    requires Shrunk(m0, m1, gone)
    ensures m1.Keys == m0.Keys - gone
  {}

  // ---- what one run does to the three maps

  datatype Maps = Maps(tracks: map<Key, nat>, senders: map<Key, nat>, tasks: map<Key, nat>)

  ghost predicate KeysAgree(x: Maps) {
    x.senders.Keys == x.tasks.Keys == x.tracks.Keys
  }

  /** The tracks with a sender whose (user, kind) is gone from the table. */
  ghost function StaleIn(m: Media, x: Maps): set<Key> {
    set k | k in x.senders && !(WellLabelled(k) && Listed(m, k))
  }

  /** The tracks the removal phase leaves. One without a sender, left behind by an earlier failure,
      is neither removed nor repaired. */
  ghost function Kept(m: Media, x: Maps): set<Key> {
    x.tracks.Keys - StaleIn(m, x)
  }

  ghost function Missing(m: Media, sub: string, x: Maps): set<Key> {
    Expected(m, sub) - Kept(m, x)
  }

  /** `y` is `x` without its stale tracks and with `added`. */
  ghost predicate Turned(x: map<Key, nat>, y: map<Key, nat>, stale: set<Key>, added: set<Key>) {
    && (forall k :: k in y <==> (k in x && k !in stale) || k in added)
    && (forall k :: k in x && k !in stale ==> k in y && y[k] == x[k])
  }

  /** A run without errors: all three maps lose the stale tracks, gain the missing ones, and keep
      the handles of all others. */
  ghost predicate Succeeded(m: Media, sub: string, x: Maps, y: Maps) {
    && Turned(x.tracks, y.tracks, StaleIn(m, x), Missing(m, sub, x))
    && Turned(x.senders, y.senders, StaleIn(m, x), Missing(m, sub, x))
    && Turned(x.tasks, y.tasks, StaleIn(m, x), Missing(m, sub, x))
  }

  /** A run that returned early: some of the missing tracks were added, then one was left without
      a sender and a forward task. */
  ghost predicate FailedOn(m: Media, sub: string, faults: Faults, x: Maps, y: Maps, added: set<Key>, bad: Key) {
    && bad in faults.add + faults.subscribe && bad !in added && added + {bad} <= Missing(m, sub, x)
    && Turned(x.tracks, y.tracks, StaleIn(m, x), added + {bad})
    && Turned(x.senders, y.senders, StaleIn(m, x), added)
    && Turned(x.tasks, y.tasks, StaleIn(m, x), added)
  }

  ghost predicate Failed(m: Media, sub: string, faults: Faults, x: Maps, y: Maps) {
    exists added, bad :: FailedOn(m, sub, faults, x, y, added, bad)
  }

  ghost predicate ShrunkMaps(x: Maps, y: Maps, gone: set<Key>) {
    Shrunk(x.tracks, y.tracks, gone) && Shrunk(x.senders, y.senders, gone) && Shrunk(x.tasks, y.tasks, gone)
  }

  lemma PhasesSucceed(m: Media, sub: string, x: Maps, mid: Maps, y: Maps, added: set<Key>)
    requires ShrunkMaps(x, mid, StaleIn(m, x)) && mid.tracks.Keys == Kept(m, x)
    requires added == Expected(m, sub) - mid.tracks.Keys
    requires Grown(mid.tracks, y.tracks, added)
    requires Grown(mid.senders, y.senders, added) && Grown(mid.tasks, y.tasks, added)
    ensures Succeeded(m, sub, x, y)
  {}

  lemma PhasesFail(m: Media, sub: string, faults: Faults, x: Maps, mid: Maps, y: Maps, added: set<Key>, bad: Key)
    requires ShrunkMaps(x, mid, StaleIn(m, x)) && mid.tracks.Keys == Kept(m, x)
    requires added + {bad} <= Expected(m, sub) - mid.tracks.Keys
    requires bad in faults.add + faults.subscribe && bad !in added
    requires Grown(mid.tracks, y.tracks, added + {bad})
    requires Grown(mid.senders, y.senders, added) && Grown(mid.tasks, y.tasks, added)
    ensures Failed(m, sub, faults, x, y)
  {
    assert FailedOn(m, sub, faults, x, y, added, bad);
  }

  /** From maps that agree, a run without errors yields maps that agree on the reconciled tracks. */
  lemma AgreeingRunReconciles(m: Media, sub: string, x: Maps, y: Maps)
    requires KeysAgree(x) && Succeeded(m, sub, x, y)
    ensures KeysAgree(y) && y.tracks.Keys == Reconciled(m, sub, x.tracks.Keys)
  {
    forall k ensures k in y.tracks <==> k in Reconciled(m, sub, x.tracks.Keys) {
      assert k in x.senders <==> k in x.tracks.Keys;
    }
    assert forall k :: k in y.senders <==> k in y.tracks;
    assert forall k :: k in y.tasks <==> k in y.tracks;
  }

  /** Whatever the maps were and wherever the run ended, it was a partial reconciliation. */
  lemma AnyRunIsPartial(m: Media, sub: string, faults: Faults, x: Maps, y: Maps)
    requires Succeeded(m, sub, x, y) || Failed(m, sub, faults, x, y)
    ensures PartlyReconciled(m, sub, x.tracks.Keys, y.tracks.Keys)
  {
    forall k | k in x.tracks.Keys && WellLabelled(k) && Listed(m, k) ensures k in y.tracks.Keys {
      assert k !in StaleIn(m, x);
    }
    forall k | k in y.tracks.Keys ensures k in x.tracks.Keys + Expected(m, sub) {
      assert k in x.tracks || k in Missing(m, sub, x);
    }
  }

  /** A track that an earlier failure left without a sender is never repaired and never removed, by a run
      that succeeds or by one that fails. */
  lemma OrphansStay(m: Media, sub: string, faults: Faults, x: Maps, y: Maps, k: Key)
    requires k in x.tracks && k !in x.senders
    requires Succeeded(m, sub, x, y) || Failed(m, sub, faults, x, y)
    ensures k in y.tracks && k !in y.senders
  {
    assert k in Kept(m, x);
  }

  lemma NothingLeftToDo(m: Media, sub: string, x: Maps, y: Maps)
    requires WellFormed(m) && Succeeded(m, sub, x, y)
    ensures StaleIn(m, y) == {} && Missing(m, sub, y) == {}
  {
    ExpectedIsSound(m, sub);
    forall k | k in y.senders ensures WellLabelled(k) && Listed(m, k) {
      assert k in x.senders || k in Missing(m, sub, x);
    }
    forall k | k in Expected(m, sub) ensures k in y.tracks {
      assert k in Kept(m, x) || k in Missing(m, sub, x);
    }
  }

  lemma TurnedByNothing(x: map<Key, nat>, y: map<Key, nat>)
    requires Turned(x, y, {}, {})
    ensures y == x
  {}

  /** A second run on the same table changes nothing, from any maps, even ones with orphans: not a key,
      not a handle. */
  lemma SecondRunChangesNothing(m: Media, sub: string, x: Maps, y: Maps, z: Maps)
    requires WellFormed(m) && Succeeded(m, sub, x, y) && Succeeded(m, sub, y, z)
    ensures z == y
  {
    NothingLeftToDo(m, sub, x, y);
    TurnedByNothing(y.tracks, z.tracks);
    TurnedByNothing(y.senders, z.senders);
    TurnedByNothing(y.tasks, z.tasks);
  }

  /** A run as the state machine of the renegotiation sees it: whole when it ran to its end from maps that
      agree. */
  function EffectOf(s: Renegotiation.Subscriber, ok: bool, strays: set<Key>, left: set<Key>): Renegotiation.Effect {
    Renegotiation.Effect(ok && !s.errors.torn, strays, left)
  }

  function Updated(s: Renegotiation.Subscriber, e: Renegotiation.Effect): Renegotiation.Subscriber {
    s.(tracks := e.left, errors := Renegotiation.Marked(s.errors, e))
  }

  /** Every outcome of a run is one that the state machine's table update can have. */
  lemma OutcomeIsAllowed(s: Renegotiation.Subscriber, m: Media, faults: Faults, ok: bool, x: Maps, y: Maps,
                         strays: set<Key>)
    requires WellFormed(m) && s.tracks == x.tracks.Keys && x.senders.Keys <= x.tracks.Keys
    requires !s.errors.torn ==> KeysAgree(x)
    requires if ok then Succeeded(m, s.user, x, y) else Failed(m, s.user, faults, x, y)
    requires strays <= StaleIn(m, x) + if ok then {} else Missing(m, s.user, x)
    ensures Renegotiation.Leaves(s, m, EffectOf(s, ok, strays, y.tracks.Keys))
    ensures ok && !s.errors.torn ==> KeysAgree(y)
  {
    if ok && !s.errors.torn {
      AgreeingRunReconciles(m, s.user, x, y);
      ExpectedIsSound(m, s.user);
    } else {
      AnyRunIsPartial(m, s.user, faults, x, y);
    }
  }

  /** Of two maps with the same keys, the one that did not get `bad` is short of exactly that key. */
  lemma ShortOfOne(x: map<Key, nat>, y: map<Key, nat>, xs: map<Key, nat>, ys: map<Key, nat>,
                   stale: set<Key>, added: set<Key>, bad: Key)
    requires xs.Keys == x.Keys && bad !in added && (bad in x ==> bad in stale)
    requires Turned(x, y, stale, added + {bad}) && Turned(xs, ys, stale, added)
    ensures bad in y && ys.Keys == y.Keys - {bad}
  {
    forall k ensures k in ys.Keys <==> k in y.Keys - {bad} {
      assert k in xs <==> k in x;
    }
  }

  /** From maps that agree, an early return leaves exactly one track without a sender. */
  lemma OneOrphanPerFailure(m: Media, sub: string, faults: Faults, x: Maps, y: Maps) returns (bad: Key)
    requires KeysAgree(x) && Failed(m, sub, faults, x, y)
    ensures bad in Expected(m, sub) && bad in faults.add + faults.subscribe
    ensures y.senders.Keys == y.tasks.Keys == y.tracks.Keys - {bad} && bad in y.tracks
  {
    var added, b :| FailedOn(m, sub, faults, x, y, added, b);
    bad := b;
    assert bad in Missing(m, sub, x);
    ShortOfOne(x.tracks, y.tracks, x.senders, y.senders, StaleIn(m, x), added, bad);
    ShortOfOne(x.tracks, y.tracks, x.tasks, y.tasks, StaleIn(m, x), added, bad);
  }

  // ---- senders left behind

  /** The tracks of the peer connection's senders that the map does not list. */
  ghost function Strays(pc: map<nat, Key>, senders: map<Key, nat>): set<Key> {
    set h | h in pc && !(pc[h] in senders && senders[pc[h]] == h) :: pc[h]
  }

  lemma StraysAfterRemoval(pc: map<nat, Key>, senders: map<Key, nat>, k: Key, fails: bool)
    requires k in senders && senders[k] in pc && pc[senders[k]] == k
    ensures Strays(if fails then pc else pc - {senders[k]}, senders - {k}) ==
            Strays(pc, senders) + if fails then {k} else {}
  {
    var pc', senders' := if fails then pc else pc - {senders[k]}, senders - {k};
    forall x | x in Strays(pc, senders) ensures x in Strays(pc', senders') {
      var h :| h in pc && pc[h] == x && !(x in senders && senders[x] == h);
      assert h in pc' && pc'[h] == x && !(x in senders' && senders'[x] == h);
    }
    forall x | x in Strays(pc', senders') && x != k ensures x in Strays(pc, senders) {
      var h :| h in pc' && pc'[h] == x && !(x in senders' && senders'[x] == h);
      assert h in pc && pc[h] == x && !(x in senders && senders[x] == h);
    }
    if fails {
      assert senders[k] in pc' && pc'[senders[k]] == k && k !in senders';
    } else if k in Strays(pc', senders') {
      var h :| h in pc' && pc'[h] == k;
      assert h in pc && pc[h] == k && senders[k] != h;
    }
  }

  lemma StraysAfterAdding(pc: map<nat, Key>, senders: map<Key, nat>, h: nat, k: Key)
    requires h !in pc && k !in senders
    ensures Strays(pc[h := k], senders[k := h]) == Strays(pc, senders)
    ensures Strays(pc[h := k], senders) == Strays(pc, senders) + {k}
  {
    var pc', senders' := pc[h := k], senders[k := h];
    forall x | x in Strays(pc, senders) ensures x in Strays(pc', senders') && x in Strays(pc', senders) {
      var g :| g in pc && pc[g] == x && !(x in senders && senders[x] == g);
      assert g in pc' && pc'[g] == x && !(x in senders' && senders'[x] == g);
    }
    forall x | x in Strays(pc', senders') ensures x in Strays(pc, senders) {
      var g :| g in pc' && pc'[g] == x && !(x in senders' && senders'[x] == g);
      assert g in pc && pc[g] == x;
    }
    assert h in pc' && pc'[h] == k && k !in senders;
    assert k in Strays(pc', senders);
  }

  lemma OneMoreFault(before: set<Key>, faults: set<Key>, done: set<Key>, k: Key, strays: set<Key>)
    requires strays == before + faults * done
    ensures strays + (if k in faults then {k} else {}) == before + faults * (done + {k})
  {}

  lemma JoinOne<T>(s: set<T>, t: set<T>, x: T)
    ensures s + t + {x} == s + (t + {x})
  {}

  lemma OneLess<T>(all: set<T>, todo: set<T>, x: T)
    requires x in todo && todo <= all
    ensures all - (todo - {x}) == all - todo + {x}
  {}

  class Tracks {
    const user: string
    var rtpTracks: map<Key, nat>        // track handles
    var rtpSenders: map<Key, nat>       // sender handles
    var rtpForwardTasks: map<Key, nat>  // task handles
    var pcSenders: map<nat, Key>        // the peer connection's senders, and the track of each
    var running: map<nat, Key>          // forward tasks spawned and not aborted, and what they forward
    var next: nat                       // the next fresh handle

    /** Map agreement: it holds between any two writes, hence through every early return. */
    ghost predicate Valid()
      reads this
    {
      && rtpSenders.Keys <= rtpForwardTasks.Keys <= rtpTracks.Keys
      && AllWellLabelled(rtpTracks.Keys)
      && (forall k :: k in rtpSenders ==> rtpSenders[k] in pcSenders && pcSenders[rtpSenders[k]] == k)
      && (forall k :: k in rtpForwardTasks ==> rtpForwardTasks[k] in running && running[rtpForwardTasks[k]] == k)
      && (forall h :: h in running ==> running[h] in rtpForwardTasks && rtpForwardTasks[running[h]] == h)
      && (forall h :: h in pcSenders ==> h < next)
      && (forall h :: h in running ==> h < next)
    }

    /** The three maps and the peer connection list the same tracks. */
    ghost predicate Agreed()
      reads this
    {
      && rtpSenders.Keys == rtpForwardTasks.Keys == rtpTracks.Keys
      && forall h :: h in pcSenders ==> pcSenders[h] in rtpSenders && rtpSenders[pcSenders[h]] == h
    }

    constructor (user: string)
      ensures Valid() && Agreed() && this.user == user && rtpTracks == map[]
    {
      this.user := user;
      rtpTracks, rtpSenders, rtpForwardTasks := map[], map[], map[];
      pcSenders, running, next := map[], map[], 0;
    }

    /** The tracks of the peer connection's senders that are not in the map: they were left behind. */
    ghost function StrayKeys(): set<Key>
      reads this
    {
      Strays(pcSenders, rtpSenders)
    }

    ghost function Snapshot(): Maps
      reads this
    {
      Maps(rtpTracks, rtpSenders, rtpForwardTasks)
    }

    lemma AgreedHasNoStrays()
      ensures Agreed() <==> KeysAgree(Snapshot()) && StrayKeys() == {}
    {
      if StrayKeys() == {} {
        forall h | h in pcSenders ensures pcSenders[h] in rtpSenders && rtpSenders[pcSenders[h]] == h {
          assert pcSenders[h] !in StrayKeys();
        }
      }
    }

    /** What the state machine of the renegotiation knows of this object. */
    ghost predicate Represents(s: Renegotiation.Subscriber)
      reads this
    {
      && s.user == user && s.tracks == rtpTracks.Keys && s.errors.strays == StrayKeys()
      && (!s.errors.torn ==> KeysAgree(Snapshot()))
    }

    /** What an offer of the state machine lists is what the peer connection has. */
    lemma OffersListTheSenders(s: Renegotiation.Subscriber)
      requires Valid() && Represents(s)
      ensures (set h | h in pcSenders :: pcSenders[h]) <= Renegotiation.Senders(s)
      ensures !s.errors.torn ==> (set h | h in pcSenders :: pcSenders[h]) == Renegotiation.Senders(s)
    {
      var keys := set h | h in pcSenders :: pcSenders[h];
      forall k | k in keys ensures k in rtpSenders || k in StrayKeys() {
        var h :| h in pcSenders && pcSenders[h] == k;
      }
      forall k | k in rtpSenders ensures k in keys {
        assert rtpSenders[k] in pcSenders;
      }
    }

    ghost function Stale(m: Media): set<Key>
      reads this
    {
      StaleIn(m, Snapshot())
    }

    method CollectStale(m: Media) returns (targets: set<Key>)
      requires Valid()
      ensures targets == Stale(m)
    {
      targets := {};
      var todo := rtpSenders.Keys;
      while todo != {}
        invariant todo <= rtpSenders.Keys
        invariant targets == Stale(m) - todo
        decreases todo
      {
        var k :| k in todo;
        if !Listed(m, k) {
          targets := targets + {k};
        }
        todo := todo - {k};
      }
    }

    /** Takes one track down in all three maps; a failing remove_track is only logged. */
    method RemoveTrack(k: Key, fails: bool)
      requires Valid() && k in rtpSenders
      modifies this`rtpTracks, this`rtpSenders, this`rtpForwardTasks, this`pcSenders, this`running
      ensures Valid()
      ensures Shrunk(old(rtpTracks), rtpTracks, {k})
      ensures Shrunk(old(rtpSenders), rtpSenders, {k})
      ensures Shrunk(old(rtpForwardTasks), rtpForwardTasks, {k})
      ensures pcSenders == if fails then old(pcSenders) else old(pcSenders) - {old(rtpSenders)[k]}
      ensures StrayKeys() == old(StrayKeys()) + if fails then {k} else {}
    {
      StraysAfterRemoval(pcSenders, rtpSenders, k, fails);
      if !fails {
        pcSenders := pcSenders - {rtpSenders[k]};
      }
      rtpTracks := rtpTracks - {k};
      rtpSenders := rtpSenders - {k};
      running := running - {rtpForwardTasks[k]};
      rtpForwardTasks := rtpForwardTasks - {k};
    }

    /** Subscribes to the RTP subject and spawns the task; the insert displaces no live task. */
    method SpawnForwardTask(k: Key, fails: bool) returns (ok: bool)
      requires Valid() && k in rtpTracks && k !in rtpForwardTasks
      modifies this`rtpForwardTasks, this`running, this`next
      ensures Valid() && ok == !fails && next >= old(next)
      ensures Grown(old(rtpForwardTasks), rtpForwardTasks, if ok then {k} else {})
    {
      if fails {
        return false;
      }
      var task := next;
      next := next + 1;
      running := running[task := k];
      rtpForwardTasks := rtpForwardTasks[k := task];
      return true;
    }

    method InsertTrack(k: Key)
      requires Valid() && k !in rtpTracks && WellLabelled(k)
      modifies this`rtpTracks, this`next
      ensures Valid() && Grown(old(rtpTracks), rtpTracks, {k})
    {
      rtpTracks := rtpTracks[k := next];
      next := next + 1;
    }

    method PeerAddTrack(k: Key, fails: bool) returns (ok: bool, sender: nat)
      requires Valid()
      modifies this`pcSenders, this`next
      ensures Valid() && ok == !fails
      ensures if ok then sender !in old(pcSenders) && pcSenders == old(pcSenders)[sender := k]
              else pcSenders == old(pcSenders)
    {
      sender := next;
      if fails {
        return false, sender;
      }
      next := next + 1;
      pcSenders := pcSenders[sender := k];
      return true, sender;
    }

    method InsertSender(k: Key, sender: nat)
      requires Valid() && k in rtpForwardTasks && k !in rtpSenders
      requires sender in pcSenders && pcSenders[sender] == k
      modifies this`rtpSenders
      ensures Valid() && Grown(old(rtpSenders), rtpSenders, {k}) && rtpSenders == old(rtpSenders)[k := sender]
    {
      rtpSenders := rtpSenders[k := sender];
    }

    /** Adds one track; each of the two calls that can fail returns at once. */
    method AddTrack(k: Key, faults: Faults) returns (ok: bool)
      requires Valid() && k !in rtpTracks && WellLabelled(k)
      modifies this
      ensures Valid()
      ensures ok <==> k !in faults.add && k !in faults.subscribe
      ensures Grown(old(rtpTracks), rtpTracks, {k})
      ensures Grown(old(rtpForwardTasks), rtpForwardTasks, if ok then {k} else {})
      ensures Grown(old(rtpSenders), rtpSenders, if ok then {k} else {})
      ensures old(StrayKeys()) <= StrayKeys() <= old(StrayKeys()) + if ok then {} else {k}
    {
      assert k !in rtpSenders && k !in rtpForwardTasks;
      InsertTrack(k);
      var sender;
      ok, sender := PeerAddTrack(k, k in faults.add);
      if ok {
        StraysAfterAdding(old(pcSenders), rtpSenders, sender, k);
        ok := SpawnForwardTask(k, k in faults.subscribe);
        if ok {
          InsertSender(k, sender);
        }
      }
    }

    /** The state after removing `gone` from the maps of before the removal phase. */
    ghost predicate Removed(tracks: map<Key, nat>, senders: map<Key, nat>, tasks: map<Key, nat>, gone: set<Key>)
      reads this
    {
      Shrunk(tracks, rtpTracks, gone) && Shrunk(senders, rtpSenders, gone) && Shrunk(tasks, rtpForwardTasks, gone)
    }

    /** The removal phase. */
    method RemoveStale(m: Media, faults: Faults)
      requires Valid()
      modifies this`rtpTracks, this`rtpSenders, this`rtpForwardTasks, this`pcSenders, this`running
      ensures Valid()
      ensures Removed(old(rtpTracks), old(rtpSenders), old(rtpForwardTasks), old(Stale(m)))
      ensures StrayKeys() == old(StrayKeys()) + faults.remove * old(Stale(m))
    {
      var targets := CollectStale(m);
      ghost var tracks, senders, tasks := rtpTracks, rtpSenders, rtpForwardTasks;
      ghost var strays, done := StrayKeys(), {};
      var todo := targets;
      while todo != {}
        invariant todo <= targets && todo <= rtpSenders.Keys
        invariant Valid()
        invariant done == targets - todo
        invariant Removed(tracks, senders, tasks, done)
        invariant StrayKeys() == strays + faults.remove * done
        decreases todo
      {
        var k :| k in todo;
        ghost var tracks1, senders1, tasks1 := rtpTracks, rtpSenders, rtpForwardTasks;
        OneMoreFault(strays, faults.remove, done, k, StrayKeys());
        RemoveTrack(k, k in faults.remove);
        ShrinkFurther(tracks, tracks1, rtpTracks, done, k);
        ShrinkFurther(senders, senders1, rtpSenders, done, k);
        ShrinkFurther(tasks, tasks1, rtpForwardTasks, done, k);
        OneLess(targets, todo, k);
        todo, done := todo - {k}, done + {k};
      }
      assert done == targets;
    }

    /** The state after adding `added` to the maps of before the adding phase. */
    ghost predicate Added(tracks: map<Key, nat>, senders: map<Key, nat>, tasks: map<Key, nat>, added: set<Key>)
      reads this
    {
      Grown(tracks, rtpTracks, added) && Grown(senders, rtpSenders, added) && Grown(tasks, rtpForwardTasks, added)
    }

    /** A fault on `bad` ended the adding phase after `added`: its track stays behind without a sender. */
    ghost predicate FailedAt(tracks: map<Key, nat>, senders: map<Key, nat>, tasks: map<Key, nat>,
                             added: set<Key>, bad: Key, faults: Faults)
      reads this
    {
      && bad in faults.add + faults.subscribe && bad !in added
      && Grown(tracks, rtpTracks, added + {bad}) && Grown(senders, rtpSenders, added)
      && Grown(tasks, rtpForwardTasks, added)
    }

    /** The tracks of one row, as far as they are missing. */
    method AddRow(row: Row, count: nat, faults: Faults) returns (ok: bool, ghost added: set<Key>, ghost bad: Key)
      requires Valid() && IsKind(row.kind)
      modifies this
      ensures Valid()
      ensures ok ==> added == RowKeys(row, count) - old(rtpTracks.Keys)
      ensures ok ==> added !! faults.add + faults.subscribe
      ensures ok ==> Added(old(rtpTracks), old(rtpSenders), old(rtpForwardTasks), added)
      ensures !ok ==> added + {bad} <= RowKeys(row, count) - old(rtpTracks.Keys)
      ensures !ok ==> FailedAt(old(rtpTracks), old(rtpSenders), old(rtpForwardTasks), added, bad, faults)
      ensures old(StrayKeys()) <= StrayKeys() <= old(StrayKeys()) + if ok then {} else {bad}
    {
      ghost var tracks, senders, tasks := rtpTracks, rtpSenders, rtpForwardTasks;
      added := {};
      bad := Key(row.user, "");
      ok := true;
      for index := 0 to count
        invariant ok && Valid()
        invariant added == RowKeys(row, index) - tracks.Keys
        invariant added !! faults.add + faults.subscribe
        invariant Added(tracks, senders, tasks, added)
        invariant StrayKeys() == old(StrayKeys())
      {
        var k := Key(row.user, Label(row.kind, index));
        KindOfLabel(row.kind, index);
        NextRowKey(row, index, count);
        if k !in rtpTracks {
          MissingOfRow(row, index, count, tracks.Keys, added, k);
          ghost var tracks1, senders1, tasks1 := rtpTracks, rtpSenders, rtpForwardTasks;
          ok := AddTrack(k, faults);
          GrowFurther(tracks, tracks1, rtpTracks, added, k);
          if !ok {
            bad := k;
            return;
          }
          GrowFurther(senders, senders1, rtpSenders, added, k);
          GrowFurther(tasks, tasks1, rtpForwardTasks, added, k);
          added := added + {k};
        }
      }
    }

    /** The adding phase: all rows of other users, in any order. */
    method AddMissing(m: Media, faults: Faults) returns (ok: bool, ghost added: set<Key>, ghost bad: Key)
      requires Valid() && WellFormed(m)
      modifies this
      ensures Valid()
      ensures ok <==> Expected(m, user) - old(rtpTracks.Keys) !! faults.add + faults.subscribe
      ensures ok ==> added == Expected(m, user) - old(rtpTracks.Keys)
      ensures ok ==> Added(old(rtpTracks), old(rtpSenders), old(rtpForwardTasks), added)
      ensures !ok ==> added + {bad} <= Expected(m, user) - old(rtpTracks.Keys)
      ensures !ok ==> FailedAt(old(rtpTracks), old(rtpSenders), old(rtpForwardTasks), added, bad, faults)
      ensures old(StrayKeys()) <= StrayKeys() <= old(StrayKeys()) + if ok then {} else {bad}
    {
      ghost var tracks, senders, tasks := rtpTracks, rtpSenders, rtpForwardTasks;
      added := {};
      bad := Key("", "");
      ok := true;
      var todo := m.Keys;
      ghost var seen: set<Row> := {};
      while todo != {}
        invariant ok && Valid()
        invariant todo <= m.Keys && seen == m.Keys - todo
        invariant added == ExpectedOf(m, user, seen) - tracks.Keys
        invariant added !! faults.add + faults.subscribe
        invariant Added(tracks, senders, tasks, added)
        invariant StrayKeys() == old(StrayKeys())
        decreases todo
      {
        var row :| row in todo;
        todo := todo - {row};
        if IsEcho(row.user, user) {
          ExpectedOfOneMore(m, user, seen, row);
        } else {
          ghost var tracks1, senders1, tasks1 := rtpTracks, rtpSenders, rtpForwardTasks;
          ghost var more: set<Key>;
          ok, more, bad := AddRow(row, m[row], faults);
          GrownKeys(tracks, tracks1, added);
          GrowByMany(tracks, tracks1, rtpTracks, added, if ok then more else more + {bad});
          GrowByMany(senders, senders1, rtpSenders, added, more);
          GrowByMany(tasks, tasks1, rtpForwardTasks, added, more);
          OneMoreRow(m, user, seen, row, tracks.Keys, added, if ok then more else more + {bad});
          if !ok {
            JoinOne(added, more, bad);
            added := added + more;
            return;
          }
          added := added + more;
        }
        seen := seen + {row};
      }
      ExpectedOfAll(m, user);
      assert seen == m.Keys;
    }

    /** The two phases, with what they do to the maps in both outcomes. */
    method Reconcile(m: Media, faults: Faults) returns (ok: bool)
      requires Valid() && WellFormed(m)
      modifies this
      ensures Valid()
      ensures ok <==> Missing(m, user, old(Snapshot())) !! faults.add + faults.subscribe
      ensures ok ==> Succeeded(m, user, old(Snapshot()), Snapshot())
      ensures !ok ==> Failed(m, user, faults, old(Snapshot()), Snapshot())
      ensures ok ==> StrayKeys() == old(StrayKeys()) + faults.remove * old(Stale(m))
      ensures old(StrayKeys()) <= StrayKeys()
      ensures StrayKeys() - old(StrayKeys()) <= old(Stale(m)) + if ok then {} else Missing(m, user, old(Snapshot()))
    {
      ghost var before := Snapshot();
      RemoveStale(m, faults);
      ghost var mid := Snapshot();
      ShrunkKeys(before.tracks, mid.tracks, StaleIn(m, before));
      ghost var added, bad;
      ok, added, bad := AddMissing(m, faults);
      if ok {
        PhasesSucceed(m, user, before, mid, Snapshot(), added);
      } else {
        PhasesFail(m, user, faults, before, mid, Snapshot(), added, bad);
      }
    }

    /** One run. */
    method Update(read: TableRead, faults: Faults) returns (ok: bool)
      requires Valid() && (read.Table? ==> WellFormed(read.media))
      modifies this
      ensures Valid()
      ensures read.ReadFailed? ==> !ok && Snapshot() == old(Snapshot())
      ensures read.ReadFailed? ==> running == old(running) && pcSenders == old(pcSenders)
      ensures read.Table? ==> (ok <==> Missing(read.media, user, old(Snapshot())) !! faults.add + faults.subscribe)
      ensures read.Table? && ok ==> Succeeded(read.media, user, old(Snapshot()), Snapshot())
      ensures read.Table? && !ok ==> Failed(read.media, user, faults, old(Snapshot()), Snapshot())
      ensures ok && old(Agreed()) && faults.remove == {} ==> Agreed()
      ensures read.Table? && ok ==> StrayKeys() == old(StrayKeys()) + faults.remove * old(Stale(read.media))
      ensures forall s :: read.Table? && old(Represents(s)) ==>
                var e := EffectOf(s, ok, StrayKeys() - old(StrayKeys()), rtpTracks.Keys);
                Renegotiation.Leaves(s, read.media, e) && Represents(Updated(s, e))
    {
      if read.ReadFailed? {
        return false;
      }
      var m := read.media;
      ghost var before := Snapshot();
      AgreedHasNoStrays();
      ok := Reconcile(m, faults);
      if ok && KeysAgree(before) {
        AgreeingRunReconciles(m, user, before, Snapshot());
      }
      AgreedHasNoStrays();
      ghost var strays := StrayKeys() - old(StrayKeys());
      forall s | old(Represents(s))
        ensures
          var e := EffectOf(s, ok, strays, rtpTracks.Keys);
          Renegotiation.Leaves(s, m, e) && Represents(Updated(s, e))
      {
        OutcomeIsAllowed(s, m, faults, ok, before, Snapshot(), strays);
      }
    }

    /** The end of the connection: since every running task is in the map, aborting the map's
        tasks leaves none running. */
    method AbortAll()
      requires Valid()
      modifies this`running
      ensures running == map[]
    {
      var todo := rtpForwardTasks.Keys;
      while todo != {}
        invariant todo <= rtpForwardTasks.Keys
        invariant forall h :: h in running ==> running[h] in todo && rtpForwardTasks[running[h]] == h
        decreases todo
      {
        var k :| k in todo;
        running := running - {rtpForwardTasks[k]};
        todo := todo - {k};
      }
      assert running.Keys == {};
    }
  }
}
