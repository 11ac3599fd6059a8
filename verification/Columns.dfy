/** The seam between wire messages and backend values: enum numbers, column
    trees and durations. */
module Columns {
  import opened FlatCatalog

  // --- Column types ---

  /** Proto enums are open: any number can arrive.  0 is UNSPECIFIED, 1 to 15
      are the declared types and 16 is UNKNOWN. */
  type WireType = int

  const WIRE_UNSPECIFIED: WireType := 0
  const WIRE_UNKNOWN: WireType := 16

  /** The two numberings agree on the declared types, but for unknown, which is
      0 in Go and 16 on the wire. */
  const COL_TYPE_TO_PROTO: map<ColumnType, WireType> :=
    map t: int | TYPE_UNKNOWN <= t <= TYPE_GEOGRAPHY :: if t == TYPE_UNKNOWN then WIRE_UNKNOWN else t

  const PROTO_TO_COL_TYPE: map<WireType, ColumnType> :=
    map p: int | WIRE_UNSPECIFIED < p <= WIRE_UNKNOWN :: if p == WIRE_UNKNOWN then TYPE_UNKNOWN else p

  ghost predicate Injective<K(!new), V>(m: map<K, V>) {
    forall a, b :: a in m && b in m && m[a] == m[b] ==> a == b
  }

  /** `back` undoes `m`: defined on exactly the values of `m`. */
  ghost predicate Inverts<K(!new), V(!new)>(m: map<K, V>, back: map<V, K>) {
    && (forall k :: k in m ==> m[k] in back)
    && (forall v :: v in back ==> back[v] in m && m[back[v]] == v)
  }

  /** The loop that fills an inverse map, over the keys in whatever order the
      map is walked. */
  method Invert<K(!new), V(!new,==)>(m: map<K, V>) returns (back: map<V, K>)
    ensures Inverts(m, back)
  {
    back := map[];
    var rest := m.Keys;
    while rest != {}
      invariant rest <= m.Keys
      invariant forall k :: k in m && k !in rest ==> m[k] in back
      invariant forall v :: v in back ==> back[v] in m && m[back[v]] == v
      decreases rest
    {
      var k :| k in rest;
      back := back[m[k] := k];
      rest := rest - {k};
    }
  }

  /** An injective map has one inverse, so the walk's order does not show. */
  lemma InverseIsUnique<K(!new), V(!new)>(m: map<K, V>, one: map<V, K>, other: map<V, K>)
    requires Injective(m) && Inverts(m, one) && Inverts(m, other)
    ensures one == other
  {
    forall v ensures v in one <==> v in other {
      if v in one { assert m[one[v]] in other; }
      if v in other { assert m[other[v]] in one; }
    }
    assert one.Keys == other.Keys;
    forall v | v in one ensures one[v] == other[v] {
      assert m[one[v]] == m[other[v]];
    }
  }

  /** Any order of the loop builds the table colTypeIn reads. */
  lemma ColumnTypesInvert(back: map<WireType, ColumnType>)
    requires Inverts(COL_TYPE_TO_PROTO, back)
    ensures back == PROTO_TO_COL_TYPE
  {
    InverseIsUnique(COL_TYPE_TO_PROTO, back, PROTO_TO_COL_TYPE);
  }

  function ColTypeOut(t: ColumnType): WireType {
    if t in COL_TYPE_TO_PROTO then COL_TYPE_TO_PROTO[t] else WIRE_UNKNOWN
  }

  function ColTypeIn(p: WireType): ColumnType {
    if p in PROTO_TO_COL_TYPE then PROTO_TO_COL_TYPE[p] else TYPE_UNKNOWN
  }

  // --- Column trees ---

  datatype WireColumn = WireColumn(
    name: string,
    columnType: WireType,
    nullable: bool,
    nativeType: string,
    precision: int,
    scale: int,
    description: string,
    fields: seq<WireColumn>)

  function ColumnOut(c: Column): WireColumn {
    WireColumn(c.name, ColTypeOut(c.columnType), c.nullable, c.nativeType, c.precision, c.scale, c.description,
               seq(|c.fields|, i requires 0 <= i < |c.fields| => ColumnOut(c.fields[i])))
  }

  function ColumnsOut(cs: seq<Column>): seq<WireColumn> {
    seq(|cs|, i requires 0 <= i < |cs| => ColumnOut(cs[i]))
  }

  function ColumnIn(pc: WireColumn): Column {
    Column(pc.name, ColTypeIn(pc.columnType), pc.nullable, pc.nativeType, pc.precision, pc.scale, pc.description,
           seq(|pc.fields|, i requires 0 <= i < |pc.fields| => ColumnIn(pc.fields[i])))
  }

  function ColumnsIn(pcs: seq<WireColumn>): seq<Column> {
    seq(|pcs|, i requires 0 <= i < |pcs| => ColumnIn(pcs[i]))
  }

  /** columnOut: recursion over the fields with an appending loop. */
  method TranslateOut(c: Column) returns (pc: WireColumn)
    ensures pc == ColumnOut(c)
    decreases c
  {
    pc := WireColumn(c.name, ColTypeOut(c.columnType), c.nullable, c.nativeType,
                     c.precision, c.scale, c.description, []);
    for i := 0 to |c.fields|
      invariant pc == ColumnOut(c).(fields := ColumnOut(c).fields[..i])
    {
      var f := TranslateOut(c.fields[i]);
      pc := pc.(fields := pc.fields + [f]);
    }
  }

  /** columnIn, likewise. */
  method TranslateIn(pc: WireColumn) returns (c: Column)
    ensures c == ColumnIn(pc)
    decreases pc
  {
    c := Column(pc.name, ColTypeIn(pc.columnType), pc.nullable, pc.nativeType,
                pc.precision, pc.scale, pc.description, []);
    for i := 0 to |pc.fields|
      invariant c == ColumnIn(pc).(fields := ColumnIn(pc).fields[..i])
    {
      var f := TranslateIn(pc.fields[i]);
      c := c.(fields := c.fields + [f]);
    }
  }

  method TranslateAllOut(cs: seq<Column>) returns (out: seq<WireColumn>)
    ensures out == ColumnsOut(cs)
  {
    out := [];
    for i := 0 to |cs|
      invariant out == ColumnsOut(cs)[..i]
    {
      var pc := TranslateOut(cs[i]);
      out := out + [pc];
    }
  }

  method TranslateAllIn(pcs: seq<WireColumn>) returns (out: seq<Column>)
    ensures out == ColumnsIn(pcs)
  {
    out := [];
    for i := 0 to |pcs|
      invariant out == ColumnsIn(pcs)[..i]
    {
      var c := TranslateIn(pcs[i]);
      out := out + [c];
    }
  }

  /** A number the backend declares and the number it has on the wire: unknown is
      0 here and 16 there, all others are numbered alike. */
  predicate SameType(t: ColumnType, p: WireType) {
    if 1 <= t <= 15 then p == t else p == 16
  }

  /** Two trees that agree in shape, order and every field. */
  predicate SameColumn(c: Column, pc: WireColumn) {
    && c.name == pc.name && c.nullable == pc.nullable && c.nativeType == pc.nativeType
    && c.precision == pc.precision && c.scale == pc.scale && c.description == pc.description
    && |c.fields| == |pc.fields| && forall i :: 0 <= i < |c.fields| ==> SameColumn(c.fields[i], pc.fields[i])
  }

  predicate SameTypes(c: Column, pc: WireColumn) {
    && SameType(c.columnType, pc.columnType)
    && |c.fields| == |pc.fields| && forall i :: 0 <= i < |c.fields| ==> SameTypes(c.fields[i], pc.fields[i])
  }

  /** Neither direction loses, moves or mixes up anything but types it does not
      know. */
  lemma {:induction false} OutKeepsColumn(c: Column)
    ensures SameColumn(c, ColumnOut(c)) && SameTypes(c, ColumnOut(c))
  {
    forall i | 0 <= i < |c.fields|
      ensures SameColumn(c.fields[i], ColumnOut(c).fields[i]) && SameTypes(c.fields[i], ColumnOut(c).fields[i])
    {
      OutKeepsColumn(c.fields[i]);
    }
  }

  lemma {:induction false} InKeepsColumn(pc: WireColumn)
    ensures SameColumn(ColumnIn(pc), pc)
    ensures SameType(ColumnIn(pc).columnType, if 1 <= pc.columnType <= 16 then pc.columnType else 16)
  {
    forall i | 0 <= i < |pc.fields| ensures SameColumn(ColumnIn(pc).fields[i], pc.fields[i]) {
      InKeepsColumn(pc.fields[i]);
    }
  }

  /** Every type in the tree is one the backend declares. */
  predicate Declared(c: Column) {
    TYPE_UNKNOWN <= c.columnType <= TYPE_GEOGRAPHY && forall f :: f in c.fields ==> Declared(f)
  }

  /** Every type in the tree is a declared wire type other than UNSPECIFIED. */
  predicate Normal(pc: WireColumn) {
    WIRE_UNSPECIFIED < pc.columnType <= WIRE_UNKNOWN && forall f :: f in pc.fields ==> Normal(f)
  }

  /** The tree as the server can express it: numbers it does not know, and
      UNSPECIFIED, read as UNKNOWN; shape, order and all else as they were. */
  function Normalize(pc: WireColumn): (normal: WireColumn)
    ensures Normal(normal)
    ensures Normal(pc) ==> normal == pc
  {
    var fields := seq(|pc.fields|, i requires 0 <= i < |pc.fields| => Normalize(pc.fields[i]));
    assert forall i :: 0 <= i < |fields| ==> Normal(fields[i]);
    assert Normal(pc) ==> fields == pc.fields;
    pc.(columnType := if WIRE_UNSPECIFIED < pc.columnType <= WIRE_UNKNOWN then pc.columnType else WIRE_UNKNOWN,
        fields := fields)
  }

  /** Backend to wire and back is the identity on exactly the trees whose types
      are all declared. */
  lemma {:induction false} OutThenInIsIdentity(c: Column)
    ensures ColumnIn(ColumnOut(c)) == c <==> Declared(c)
  {
    var back := ColumnIn(ColumnOut(c));
    forall i | 0 <= i < |c.fields| ensures back.fields[i] == c.fields[i] <==> Declared(c.fields[i]) {
      OutThenInIsIdentity(c.fields[i]);
    }
    if Declared(c) {
      assert back.fields == c.fields;
    }
  }

  /** Wire to backend and back is that normalization, at every depth. */
  lemma {:induction false} InThenOutNormalizes(pc: WireColumn)
    ensures ColumnOut(ColumnIn(pc)) == Normalize(pc)
  {
    forall i | 0 <= i < |pc.fields| ensures ColumnOut(ColumnIn(pc.fields[i])) == Normalize(pc.fields[i]) {
      InThenOutNormalizes(pc.fields[i]);
    }
    assert ColumnOut(ColumnIn(pc)).fields == Normalize(pc).fields;
  }

  function NormalizeAll(pcs: seq<WireColumn>): seq<WireColumn> {
    seq(|pcs|, i requires 0 <= i < |pcs| => Normalize(pcs[i]))
  }

  lemma AllInThenOutNormalizes(pcs: seq<WireColumn>)
    ensures ColumnsOut(ColumnsIn(pcs)) == NormalizeAll(pcs)
  {
    forall i | 0 <= i < |pcs| ensures ColumnsOut(ColumnsIn(pcs))[i] == NormalizeAll(pcs)[i] {
      InThenOutNormalizes(pcs[i]);
    }
  }

  // --- Durations and instants ---

  const TWO_63: int := 0x8000_0000_0000_0000
  const TWO_64: int := 0x1_0000_0000_0000_0000
  const NANOS_PER_MILLI := 1_000_000

  /** A product as Go's 64-bit integers leave it. */
  function Wrap64(x: int): (r: int)
    ensures -TWO_63 <= r < TWO_63 && (r - x) % TWO_64 == 0
  {
    (x + TWO_63) % TWO_64 - TWO_63
  }

  /** queryOptsIn: the request's milliseconds as a Go duration. */
  function TimeoutIn(timeoutMs: int): int {
    Wrap64(timeoutMs * NANOS_PER_MILLI)
  }

  /** The timeout a query runs under is the one asked for precisely when that is
      within what 64 bits of nanoseconds hold. */
  lemma TimeoutIsExact(timeoutMs: int)
    requires -TWO_63 <= timeoutMs < TWO_63
    ensures TimeoutIn(timeoutMs) == timeoutMs * NANOS_PER_MILLI <==> -9223372036854 <= timeoutMs <= 9223372036854
  {
    var x := timeoutMs * NANOS_PER_MILLI;
    if -TWO_63 <= x < TWO_63 {
      assert (x + TWO_63) % TWO_64 == x + TWO_63;
    }
  }

  /** Go's zero time, 1 January of year 1. */
  const ZERO_TIME: Time := -62_135_596_800_000_000_000

  /** That is as many days before 1970 as 1969 years have, leap years counted. */
  lemma ZeroTimeIsYearOne()
    ensures ZERO_TIME == -(1969 * 365 + 1969 / 4 - 1969 / 100 + 1969 / 400) * 86_400 * 1_000 * NANOS_PER_MILLI
  {
  }

  function UnixMs(t: Time): int {
    if t == ZERO_TIME then 0 else t / NANOS_PER_MILLI
  }

  /** The millisecond an instant falls in; an unset time has none and reads as 0. */
  predicate IsMilliOf(ms: int, t: Time) {
    if t == ZERO_TIME then ms == 0 else ms * NANOS_PER_MILLI <= t < (ms + 1) * NANOS_PER_MILLI
  }

  /** The wire tells instants apart by their millisecond, whichever side of 1970,
      and an unset time reads as the first millisecond of 1970. */
  lemma InstantsByMillisecond(t: Time, ms: int)
    requires t != ZERO_TIME
    ensures UnixMs(t) == ms <==> ms * NANOS_PER_MILLI <= t < (ms + 1) * NANOS_PER_MILLI
    ensures UnixMs(t) == UnixMs(ZERO_TIME) <==> 0 <= t < NANOS_PER_MILLI
  {
    assert t == UnixMs(t) * NANOS_PER_MILLI + t % NANOS_PER_MILLI;
  }
}
