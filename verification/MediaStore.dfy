/** The media table as it is stored: one Redis hash per room, with `user#kind` fields.
    Read back, it is the table of the change log. */
module MediaStore {
  import opened Text
  import opened Naming
  import opened MediaTable

  type Hash = map<string, nat>

  function HashKey(room: string): string {
    "room#" + room + "#media"
  }

  lemma HashKeyText()
    ensures HashKey("1234") == "room#1234#media" && EncodeField(Row("pub1", VIDEO)) == "pub1#video"
  {}

  lemma HashKeyInjective(room: string, other: string)
    requires HashKey(room) == HashKey(other)
    ensures room == other
  {
    assert room == HashKey(room)[5..|HashKey(room)| - 6];
    assert other == HashKey(other)[5..|HashKey(other)| - 6];
  }

  /** `m` is what the hash decodes to: fields without a '#' are dropped. */
  ghost predicate Decodes(hash: Hash, m: Media) {
    forall row: Row ::
      && (row in m <==> '#' !in row.user && EncodeField(row) in hash)
      && (row in m ==> m[row] == hash[EncodeField(row)])
  }

  lemma DecodesToOne(hash: Hash, m: Media, n: Media)
    requires Decodes(hash, m) && Decodes(hash, n)
    ensures m == n
  {
    forall row: Row ensures row in m <==> row in n {}
    forall row | row in m ensures m[row] == n[row] {}
  }

  lemma FieldInjective(row: Row, other: Row)
    requires '#' !in row.user && '#' !in other.user && EncodeField(row) == EncodeField(other)
    ensures row == other
  {
    FieldRoundTrip(row);
    FieldRoundTrip(other);
  }

  function Incremented(hash: Hash, field: string): Hash {
    hash[field := if field in hash then hash[field] + 1 else 1]
  }

  /** The change to the table as it is read back, when `user#kind` is incremented or deleted. */
  function IncrementOf(room: string, user: string, kind: string): Change {
    Increment(room, StoredRow(user, kind).user, StoredRow(user, kind).kind)
  }

  function DeleteOf(room: string, user: string, kind: string): Change {
    Delete(room, StoredRow(user, kind).user, StoredRow(user, kind).kind)
  }

  lemma OneRowPerField(row: Row, user: string, kind: string)
    requires '#' !in row.user && EncodeField(row) == EncodeField(Row(user, kind))
    ensures row == StoredRow(user, kind)
  {
    FieldInjective(row, StoredRow(user, kind));
  }

  /** HINCRBY on the stored hash is the increment of the decoded table, in one row. */
  lemma IncrementDecodes(hash: Hash, m: Media, room: string, user: string, kind: string)
    requires Decodes(hash, m)
    ensures Decodes(Incremented(hash, EncodeField(Row(user, kind))), Apply(m, IncrementOf(room, user, kind)))
  {
    forall row: Row
      ensures '#' !in row.user && EncodeField(row) == EncodeField(Row(user, kind)) ==> row == StoredRow(user, kind)
    {
      if '#' !in row.user && EncodeField(row) == EncodeField(Row(user, kind)) { OneRowPerField(row, user, kind); }
    }
  }

  /** HDEL on the stored hash is the deletion from the decoded table, of one row. */
  lemma DeleteDecodes(hash: Hash, m: Media, room: string, user: string, kind: string)
    requires Decodes(hash, m)
    ensures Decodes(hash - {EncodeField(Row(user, kind))}, Apply(m, DeleteOf(room, user, kind)))
  {
    forall row: Row
      ensures '#' !in row.user && EncodeField(row) == EncodeField(Row(user, kind)) ==> row == StoredRow(user, kind)
    {
      if '#' !in row.user && EncodeField(row) == EncodeField(Row(user, kind)) { OneRowPerField(row, user, kind); }
    }
  }

  /** The row is the publisher's own exactly for users without '#'; any other user leaves a row of no kind,
      at which the subscribers of other users panic. */
  lemma TableStaysUsableExactly(m: Media, room: string, user: string, kind: string)
    requires WellFormed(m) && IsKind(kind)
    ensures WellFormed(Apply(m, IncrementOf(room, user, kind))) <==> '#' !in user
    ensures IncrementOf(room, user, kind) == Increment(room, user, kind) <==> '#' !in user
  {
    StoredRowExactly(user, kind);
    assert StoredRow(user, kind) in Apply(m, IncrementOf(room, user, kind));
  }

  /** All fields were written for some user and kind. */
  ghost predicate WellKept(hash: Hash) {
    forall field :: field in hash ==> '#' in field
  }

  ghost predicate CountsFit(hash: Hash) {
    forall field :: field in hash ==> hash[field] < 256
  }

  /** The stored counts fit eight bits exactly when those of the decoded table do. */
  lemma ReadableExactly(hash: Hash, m: Media)
    requires Decodes(hash, m) && WellKept(hash)
    ensures Readable(m) <==> CountsFit(hash)
  {
    forall field | field in hash ensures exists row :: row in m && m[row] == hash[field] {
      var row := DecodeField(field).value;
      assert EncodeField(row) == field && row in m;
    }
    forall row | row in m ensures EncodeField(row) in hash && m[row] == hash[EncodeField(row)] {}
  }

  lemma DecodeIs(field: string)
    ensures forall row: Row :: '#' !in row.user && EncodeField(row) == field ==> DecodeField(field) == Some(row)
  {
    forall row: Row | '#' !in row.user && EncodeField(row) == field ensures DecodeField(field) == Some(row) {
      FieldRoundTrip(row);
    }
  }

  method DecodeAll(hash: Hash) returns (r: Option<Media>)
    ensures r.Some? <==> CountsFit(hash)
    ensures r.Some? ==> Decodes(hash, r.value)
  {
    var media: Media := map[];
    var todo := hash.Keys;
    while todo != {}
      invariant todo <= hash.Keys
      invariant forall field :: field in hash && field !in todo ==> hash[field] < 256
      invariant forall row: Row :: row in media <==> '#' !in row.user && EncodeField(row) in hash.Keys - todo
      invariant forall row :: row in media ==> media[row] == hash[EncodeField(row)]
      decreases todo
    {
      var field :| field in todo;
      if hash[field] > 255 {
        return None;
      }
      DecodeIs(field);
      todo := todo - {field};
      match DecodeField(field)
      case None =>
      case Some(row) => media := media[row := hash[field]];
    }
    return Some(media);
  }

  /** The shared state's media operations, over the hashes of all rooms. */
  class Store {
    var hashes: map<string, Hash>
    ghost var log: seq<Change>

    ghost function At(room: string): Hash
      reads this
    {
      if HashKey(room) in hashes then hashes[HashKey(room)] else map[]
    }

    /** Every room's hash decodes to what the log of changes replays to. */
    ghost predicate Valid()
      reads this
    {
      forall room :: Decodes(At(room), Replay(log, room)) && WellKept(At(room))
    }

    constructor ()
      ensures Valid() && log == []
    {
      hashes := map[];
      log := [];
    }

    /** Writes the room's hash; the hashes of other rooms are under other keys. */
    method Record(room: string, hash: Hash, ghost c: Change)
      requires Valid() && c.room == room && Decodes(hash, Apply(Replay(log, room), c)) && WellKept(hash)
      modifies this
      ensures Valid() && log == old(log) + [c]
    {
      hashes := hashes[HashKey(room) := hash];
      log := log + [c];
      forall r: string ensures Decodes(At(r), Replay(log, r)) && WellKept(At(r)) {
        ReplayStep(old(log), c, r);
        assert Decodes(old(At(r)), Replay(old(log), r));
        if HashKey(r) == HashKey(room) { HashKeyInjective(r, room); }
      }
    }

    method AddUserMediaCount(room: string, user: string, kind: string)
      requires Valid()
      modifies this
      ensures Valid() && log == old(log) + [IncrementOf(room, user, kind)]
    {
      var key, field := HashKey(room), EncodeField(Row(user, kind));
      var hash := if key in hashes then hashes[key] else map[];
      IncrementDecodes(hash, Replay(log, room), room, user, kind);
      Record(room, Incremented(hash, field), IncrementOf(room, user, kind));
    }

    /** One HDEL. */
    method DeleteField(room: string, user: string, kind: string)
      requires Valid()
      modifies this
      ensures Valid() && log == old(log) + [DeleteOf(room, user, kind)]
    {
      var key, field := HashKey(room), EncodeField(Row(user, kind));
      var hash := if key in hashes then hashes[key] else map[];
      DeleteDecodes(hash, Replay(log, room), room, user, kind);
      Record(room, hash - {field}, DeleteOf(room, user, kind));
    }

    method RemoveUserMediaCount(room: string, user: string)
      requires Valid()
      modifies this
      ensures Valid() && log == old(log) + [DeleteOf(room, user, VIDEO), DeleteOf(room, user, AUDIO)]
    {
      DeleteField(room, user, VIDEO);
      DeleteField(room, user, AUDIO);
    }

    /** HGETALL, decoded; a count that does not fit a u8 fails the whole read. */
    method GetUsersMediaCount(room: string) returns (r: Option<Media>)
      requires Valid()
      ensures r.Some? <==> CountsFit(At(room))
      ensures r.Some? <==> Readable(Replay(log, room))
      ensures r.Some? ==> r.value == Replay(log, room)
    {
      var hash := if HashKey(room) in hashes then hashes[HashKey(room)] else map[];
      assert hash == At(room);
      ReadableExactly(hash, Replay(log, room));
      r := DecodeAll(hash);
      if r.Some? {
        assert Decodes(At(room), Replay(log, room));
        DecodesToOne(hash, r.value, Replay(log, room));
      }
    }
  }
}
