/** What a subscriber should forward for a given media table, and what one run
    of `update_transceivers_based_on_room` makes of the tracks it already has. */
module Reconciliation {
  import opened Naming
  import opened MediaTable

  datatype Key = Key(user: string, trackId: string)

  /** The tracks a table asks a subscriber to forward: every stream of every other user. */
  ghost function Expected(m: Media, sub: string): set<Key> {
    set row, i | row in m && !IsEcho(row.user, sub) && 0 <= i < m[row] ::
      Key(row.user, Label(row.kind, i))
  }

  /** Every key names a kind, so that splitting its label at 5 is defined. */
  predicate WellLabelled(k: Key) {
    |k.trackId| >= 5
  }

  /** The (user, kind) pair of the track is still in the table. */
  predicate Listed(m: Media, k: Key)
    requires WellLabelled(k)
  {
    Row(k.user, KindOf(k.trackId)) in m
  }

  ghost predicate AllWellLabelled(tracks: set<Key>) {
    forall k :: k in tracks ==> WellLabelled(k)
  }

  /** One run without errors from tracks that agree with the senders. */
  ghost function Reconciled(m: Media, sub: string, tracks: set<Key>): set<Key> {
    (set k | k in tracks && WellLabelled(k) && Listed(m, k)) + Expected(m, sub)
  }

  /** `left` is what any run may leave, even one that returned early or started from maps that
      disagree: tracks still listed stay, and only expected ones are new. */
  ghost predicate PartlyReconciled(m: Media, sub: string, tracks: set<Key>, left: set<Key>) {
    && (forall k :: k in tracks && WellLabelled(k) && Listed(m, k) ==> k in left)
    && left <= tracks + Expected(m, sub)
  }

  ghost predicate NoEcho(tracks: set<Key>, sub: string) {
    forall k :: k in tracks ==> !IsEcho(k.user, sub)
  }

  lemma ExpectedIsSound(m: Media, sub: string)
    requires WellFormed(m)
    ensures AllWellLabelled(Expected(m, sub)) && NoEcho(Expected(m, sub), sub)
    ensures forall k :: k in Expected(m, sub) ==> Listed(m, k)
  {
    forall k | k in Expected(m, sub)
      ensures WellLabelled(k) && !IsEcho(k.user, sub) && Listed(m, k)
    {
      var row, i :| row in m && !IsEcho(row.user, sub) && 0 <= i < m[row] &&
                    k == Key(row.user, Label(row.kind, i));
      KindOfLabel(row.kind, i);
    }
  }

  lemma ReconciledIsSound(m: Media, sub: string, tracks: set<Key>)
    requires WellFormed(m) && AllWellLabelled(tracks) && NoEcho(tracks, sub)
    ensures AllWellLabelled(Reconciled(m, sub, tracks)) && NoEcho(Reconciled(m, sub, tracks), sub)
  {
    ExpectedIsSound(m, sub);
  }

  lemma PartIsSound(m: Media, sub: string, tracks: set<Key>, left: set<Key>)
    requires WellFormed(m) && AllWellLabelled(tracks) && NoEcho(tracks, sub)
    requires PartlyReconciled(m, sub, tracks, left)
    ensures AllWellLabelled(left) && NoEcho(left, sub)
  {
    ExpectedIsSound(m, sub);
  }

  /** A label is expected exactly when its index is below the stored count. */
  lemma ExpectedIndex(m: Media, sub: string, row: Row, i: nat)
    requires WellFormed(m) && IsKind(row.kind)
    ensures Key(row.user, Label(row.kind, i)) in Expected(m, sub) <==>
            row in m && !IsEcho(row.user, sub) && i < m[row]
  {
    var k := Key(row.user, Label(row.kind, i));
    if k in Expected(m, sub) {
      var r, j :| r in m && !IsEcho(r.user, sub) && 0 <= j < m[r] && k == Key(r.user, Label(r.kind, j));
      LabelInjective(row.kind, i, r.kind, j);
      assert r == row;
    }
  }

  /** No count of another user that is in both tables went down. */
  ghost predicate NeverShrinksForOthers(m1: Media, m2: Media, sub: string) {
    forall row :: row in m1 && row in m2 && !IsEcho(row.user, sub) ==> m1[row] <= m2[row]
  }

  /** History independence, with its exact condition: the run forgets the earlier
      table if and only if no row of another user lost counts. */
  lemma ForgetsHistory(m1: Media, m2: Media, sub: string)
    requires WellFormed(m1) && WellFormed(m2)
    ensures AllWellLabelled(Expected(m1, sub))
    ensures Reconciled(m2, sub, Expected(m1, sub)) == Expected(m2, sub) <==>
            NeverShrinksForOthers(m1, m2, sub)
  {
    ExpectedIsSound(m1, sub);
    var result := Reconciled(m2, sub, Expected(m1, sub));
    if NeverShrinksForOthers(m1, m2, sub) {
      forall k | k in Expected(m1, sub) && Listed(m2, k)
        ensures k in Expected(m2, sub)
      {
        var row, i :| row in m1 && !IsEcho(row.user, sub) && 0 <= i < m1[row] &&
                      k == Key(row.user, Label(row.kind, i));
        KindOfLabel(row.kind, i);
        ExpectedIndex(m2, sub, row, i);
      }
      assert result == Expected(m2, sub);
    } else {
      var row :| row in m1 && row in m2 && !IsEcho(row.user, sub) && m1[row] > m2[row];
      var i := m2[row];
      var k := Key(row.user, Label(row.kind, i));
      KindOfLabel(row.kind, i);
      ExpectedIndex(m1, sub, row, i);
      ExpectedIndex(m2, sub, row, i);
      assert k in result && k !in Expected(m2, sub);
    }
  }

  /** Over any history without id reuse, a run at time `b` from the tracks of
      time `a` yields exactly the tracks of time `b`. */
  lemma RunCatchesUp(log: seq<Change>, a: nat, b: nat, room: string, sub: string)
    requires NoReuse(log) && KnownKinds(log) && a <= b <= |log|
    ensures AllWellLabelled(Expected(Replay(log[..a], room), sub))
    ensures Reconciled(Replay(log[..b], room), sub, Expected(Replay(log[..a], room), sub))
            == Expected(Replay(log[..b], room), sub)
  {
    ReplayWellFormed(log[..a], room);
    ReplayWellFormed(log[..b], room);
    HistoryNeverShrinks(log, a, b, room);
    ForgetsHistory(Replay(log[..a], room), Replay(log[..b], room), sub);
  }

  /** A publisher that brings two videos, leaves, and comes back under the same id with one. */
  function ReusedId(room: string, user: string): seq<Change> {
    var up := Increment(room, user, VIDEO);
    [up, up, Delete(room, user, VIDEO), up]
  }

  lemma ReusedIdTables(room: string, user: string)
    ensures Replay(ReusedId(room, user)[..2], room) == map[Row(user, VIDEO) := 2]
    ensures Replay(ReusedId(room, user), room) == map[Row(user, VIDEO) := 1]
  {
    var log := ReusedId(room, user);
    assert log[..1] == [] + [log[0]] && log[..2] == log[..1] + [log[1]];
    assert log[..3] == log[..2] + [log[2]] && log == log[..3] + [log[3]];
    ReplayStep([], log[0], room);
    ReplayStep(log[..1], log[1], room);
    ReplayStep(log[..2], log[2], room);
    ReplayStep(log[..3], log[3], room);
  }

  /** Id reuse breaks `RunCatchesUp`: when the subscriber reads before the departure and
      after the return, the second video is never taken down. */
  lemma ReuseLeavesStaleTracks(room: string, user: string, sub: string)
    requires !IsEcho(user, sub)
    ensures
      var log := ReusedId(room, user);
      var before, after := Expected(Replay(log[..2], room), sub), Expected(Replay(log, room), sub);
      && !NoReuse(log)
      && AllWellLabelled(before)
      && Reconciled(Replay(log, room), sub, before) == before != after
  {
    var log := ReusedId(room, user);
    var row := Row(user, VIDEO);
    assert log[2].Delete? && log[3].Increment?;
    ReusedIdTables(room, user);
    ExpectedIsSound(map[row := 2], sub);
    ExpectedIsSound(map[row := 1], sub);
    forall k | k in Expected(map[row := 2], sub) ensures Listed(map[row := 1], k) {
      assert Listed(map[row := 2], k);
    }
    ExpectedIndex(map[row := 2], sub, row, 1);
    ExpectedIndex(map[row := 1], sub, row, 1);
    forall k | k in Expected(map[row := 1], sub) ensures k in Expected(map[row := 2], sub) {
      var r, i :| r in map[row := 1] && !IsEcho(r.user, sub) && 0 <= i < map[row := 1][r] &&
                  k == Key(r.user, Label(r.kind, i));
      ExpectedIndex(map[row := 2], sub, row, i);
    }
  }
}
