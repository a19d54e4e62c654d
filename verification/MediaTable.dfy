/** The shared media table of every room (the Redis hash `room#R#media`) and the
    history of its changes. A table is what its change log replays to; a point
    in time is a length of that log. */
module MediaTable {
  import opened Text
  import opened Naming

  type Media = map<Row, nat>

  datatype Change =
    | Increment(room: string, user: string, kind: string)
    | Delete(room: string, user: string, kind: string)

  function RowOf(c: Change): Row {
    Row(c.user, c.kind)
  }

  /** HINCRBY and HDEL on one decoded table. */
  function Apply(m: Media, c: Change): Media {
    match c
    case Increment(_, _, _) => m[RowOf(c) := if RowOf(c) in m then m[RowOf(c)] + 1 else 1]
    case Delete(_, _, _) => m - {RowOf(c)}
  }

  /** The table of `room` after the changes in `log`. */
  function Replay(log: seq<Change>, room: string): Media {
    if log == [] then map[]
    else
      var m := Replay(log[..|log| - 1], room);
      var c := log[|log| - 1];
      if c.room == room then Apply(m, c) else m
  }

  lemma ReplayStep(log: seq<Change>, c: Change, room: string)
    ensures Replay(log + [c], room) ==
            if c.room == room then Apply(Replay(log, room), c) else Replay(log, room)
  {
    assert (log + [c])[..|log|] == log;
  }

  /** Every row is a video or an audio row; for any other kind the subscriber panics. */
  predicate WellFormed(m: Media) {
    forall row :: row in m ==> IsKind(row.kind)
  }

  /** Every count is an 8-bit number; a table with another one cannot be read at all. */
  predicate Readable(m: Media) {
    forall row :: row in m ==> m[row] < 256
  }

  predicate KnownKinds(log: seq<Change>) {
    forall i :: 0 <= i < |log| ==> IsKind(log[i].kind)
  }

  lemma {:induction false} ReplayWellFormed(log: seq<Change>, room: string)
    requires KnownKinds(log)
    ensures WellFormed(Replay(log, room))
  {
    if log != [] {
      ReplayWellFormed(log[..|log| - 1], room);
    }
  }

  /** A row that was deleted is never incremented again: full ids are not reused. */
  ghost predicate NoReuse(log: seq<Change>) {
    forall d, e :: 0 <= d < e < |log| && log[d].Delete? && log[e].Increment? ==>
      !(log[d].room == log[e].room && RowOf(log[d]) == RowOf(log[e]))
  }

  /** No row present in both tables lost counts. */
  ghost predicate NeverShrinks(m1: Media, m2: Media) {
    forall row :: row in m1 && row in m2 ==> m1[row] <= m2[row]
  }

  ghost predicate DeletedBetween(log: seq<Change>, a: nat, b: nat, room: string, row: Row)
    requires b <= |log|
  {
    exists d :: a <= d < b && log[d] == Delete(room, row.user, row.kind)
  }

  /** What happens to one row of an earlier table: it is still there with at least
      the same count, or a deletion in between removed it for good. */
  lemma {:induction false} RowFate(log: seq<Change>, a: nat, b: nat, room: string, row: Row)
    requires NoReuse(log) && a <= b <= |log|
    requires row in Replay(log[..a], room)
    ensures if row in Replay(log[..b], room)
            then Replay(log[..a], room)[row] <= Replay(log[..b], room)[row]
            else DeletedBetween(log, a, b, room, row)
    decreases b
  {
    if a < b {
      RowFate(log, a, b - 1, room, row);
      var c := log[b - 1];
      assert log[..b] == log[..b - 1] + [c];
      ReplayStep(log[..b - 1], c, room);
      if row !in Replay(log[..b - 1], room) {
        var d :| a <= d < b - 1 && log[d] == Delete(room, row.user, row.kind);
        assert DeletedBetween(log, a, b, room, row);
      } else if row !in Replay(log[..b], room) {
        assert c == Delete(room, row.user, row.kind);
        assert DeletedBetween(log, a, b, room, row);
      }
    }
  }

  /** With non-reused ids, any two tables of one history satisfy the condition
      under which reconciliation forgets the earlier one. */
  lemma HistoryNeverShrinks(log: seq<Change>, a: nat, b: nat, room: string)
    requires NoReuse(log) && a <= b <= |log|
    ensures NeverShrinks(Replay(log[..a], room), Replay(log[..b], room))
  {
    forall row | row in Replay(log[..a], room) && row in Replay(log[..b], room)
      ensures Replay(log[..a], room)[row] <= Replay(log[..b], room)[row]
    {
      RowFate(log, a, b, room, row);
    }
  }
}
