/** The names the protocol is built from: base ids, track labels, and the
    `user#kind` fields of the shared media table. */
module Naming {
  import opened Text

  const VIDEO := "video"
  const AUDIO := "audio"

  predicate IsKind(kind: string) {
    kind == VIDEO || kind == AUDIO
  }

  // ---- base ids

  /** "ID+RANDOM" -> "ID". */
  function BaseId(user: string): string {
    Before(user, '+')
  }

  /** The publisher is the subscriber itself, or the subscriber's own screen share. */
  predicate IsEcho(pub: string, sub: string) {
    BaseId(pub) == BaseId(sub) || BaseId(pub) == BaseId(sub) + "-screen"
  }

  /** The base id is what stands before the random suffix. */
  lemma BaseIdOf(id: string, random: string)
    requires '+' !in id
    ensures BaseId(id + "+" + random) == id && BaseId(id) == id
  {
    SplitOnceOf(id, '+', random);
    assert id + "+" + random == id + ['+'] + random;
    BeforeWhole(id, '+');
  }

  /** Full ids echo each other exactly when they are of the same id, or the publisher's is the screen of it. */
  lemma IsEchoExactly(pub: string, random: string, sub: string, random': string)
    requires '+' !in pub && '+' !in sub
    ensures IsEcho(pub + "+" + random, sub + "+" + random') <==> pub == sub || pub == sub + "-screen"
  {
    BaseIdOf(pub, random);
    BaseIdOf(sub, random');
  }

  // ---- track labels

  /** "video0", "audio1", ... */
  function Label(kind: string, index: nat): string {
    kind + Decimal(index)
  }

  /** `track_id.split_at(5).0`; the source panics on a shorter label. */
  function KindOf(trackId: string): string
    requires |trackId| >= 5
  {
    trackId[..5]
  }

  lemma KindOfLabel(kind: string, index: nat)
    requires IsKind(kind)
    ensures |Label(kind, index)| >= 5 && KindOf(Label(kind, index)) == kind
  {}

  /** The labels are written out: the kind, then its index in decimal. */
  lemma LabelText(index: nat)
    ensures Label(VIDEO, index) == "video" + Decimal(index) && Label(AUDIO, index) == "audio" + Decimal(index)
    ensures Label(VIDEO, 0) == "video0" && Label(AUDIO, 10) == "audio10"
    ensures forall k :: IsKind(k) <==> k == "video" || k == "audio"
  {
    assert Decimal(0) == ['0'] && Decimal(10) == Decimal(1) + ['0'] && Decimal(1) == ['1'];
  }

  lemma LabelInjective(k1: string, i1: nat, k2: string, i2: nat)
    requires IsKind(k1) && IsKind(k2)
    requires Label(k1, i1) == Label(k2, i2)
    ensures k1 == k2 && i1 == i2
  {
    KindOfLabel(k1, i1);
    KindOfLabel(k2, i2);
    assert Decimal(i1) == Label(k1, i1)[5..] && Decimal(i2) == Label(k2, i2)[5..];
    DecimalInjective(i1, i2);
  }

  // ---- media table fields

  datatype Row = Row(user: string, kind: string)

  /** `format!("{}#{}", user, mime)`. */
  function EncodeField(row: Row): string {
    row.user + "#" + row.kind
  }

  /** `splitn(2, '#')` and keep the pair; a field without '#' is dropped. */
  function DecodeField(field: string): (r: Option<Row>)
    ensures r.Some? <==> '#' in field
    ensures r.Some? ==> EncodeField(r.value) == field && '#' !in r.value.user
  {
    match SplitOnce(field, '#')
    case None => None
    case Some((user, kind)) => Some(Row(user, kind))
  }

  /** A field decodes to the row it was made from exactly for '#'-free users. */
  lemma FieldRoundTrip(row: Row)
    ensures DecodeField(EncodeField(row)) == Some(row) <==> '#' !in row.user
  {
    if '#' !in row.user {
      SplitOnceOf(row.user, '#', row.kind);
      assert row.user + ['#'] + row.kind == EncodeField(row);
    }
  }

  /** The row that the field of a user and a kind is read back as. */
  function StoredRow(user: string, kind: string): (r: Row)
    ensures EncodeField(r) == EncodeField(Row(user, kind)) && '#' !in r.user
  {
    var field := EncodeField(Row(user, kind));
    assert field[|user|] == '#';
    DecodeField(field).value
  }

  /** A '#' in the user is where the field is split, and the rest goes to the kind. */
  lemma HashMovesToKind(user: string, kind: string)
    requires '#' in user
    ensures '#' in StoredRow(user, kind).kind
  {
    var r := StoredRow(user, kind);
    var field := EncodeField(r);
    assert forall k :: 0 <= k < |r.user| ==> field[k] == r.user[k] && r.user[k] in r.user;
    var i :| 0 <= i < |user| && user[i] == '#';
    assert field[i] == '#';
    assert |r.user| <= i;
    assert field[|user|] == '#';
    assert r.kind[|user| - |r.user| - 1] == field[|user|];
  }

  /** It is the same row, and one of a kind at all, exactly for '#'-free users. */
  lemma StoredRowExactly(user: string, kind: string)
    requires IsKind(kind)
    ensures StoredRow(user, kind) == Row(user, kind) <==> '#' !in user
    ensures IsKind(StoredRow(user, kind).kind) <==> '#' !in user
  {
    FieldRoundTrip(Row(user, kind));
    if '#' in user {
      HashMovesToKind(user, kind);
    }
  }
}
