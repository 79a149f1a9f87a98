/** The store-only ZIP writer, and a reader that undoes it: it finds the end record, follows the
    recorded offsets and checks every checksum. Names and contents are the UTF-8 bytes the encoder
    produced. Layouts are those of sections 4.3.7, 4.3.12 and 4.3.16 of the ZIP APPNOTE. */
module Zip {
  import opened Ids
  import opened Bytes
  import opened Crc

  datatype Entry = Entry(name: seq<Byte>, content: seq<Byte>)

  // ---- little-endian numbers -----------------------------------------------------------

  function U16(n: nat): seq<Byte> {
    [ByteOf(n), ByteOf(n / 256)]
  }

  function U32(n: nat): seq<Byte> {
    [ByteOf(n), ByteOf(n / 256), ByteOf(n / 65536), ByteOf(n / 16777216)]
  }

  function Number(bytes: seq<Byte>): nat {
    if bytes == [] then 0 else Val(bytes[0]) + 256 * Number(bytes[1..])
  }

  lemma NumberStep(b: Byte, bytes: seq<Byte>)
    ensures Number([b] + bytes) == Val(b) + 256 * Number(bytes)
  {
    hide Val;
    assert ([b] + bytes)[1..] == bytes;
  }

  lemma U16Back(n: nat)
    requires n < 0x1_0000
    ensures Number(U16(n)) == n
  {
    hide ByteOf, Val, Number;
    ByteBack(n);
    ByteBack(n / 256);
    NumberNone();
    assert U16(n) == [ByteOf(n)] + ([ByteOf(n / 256)] + []);
    NumberStep(ByteOf(n / 256), []);
    NumberStep(ByteOf(n), [ByteOf(n / 256)] + []);
  }

  lemma NumberNone()
    ensures Number([]) == 0
  {
  }

  lemma FourDigits(n: nat)
    requires n < 0x1_0000_0000
    ensures n == n % 256 + 256 * ((n / 256) % 256 + 256 * ((n / 65536) % 256 + 256 * ((n / 16777216) % 256)))
  {
  }

  lemma U32Back(n: nat)
    requires n < 0x1_0000_0000
    ensures Number(U32(n)) == n
  {
    hide ByteOf, Val, Number;
    ByteBack(n);
    ByteBack(n / 256);
    ByteBack(n / 65536);
    ByteBack(n / 16777216);
    NumberNone();
    var b0, b1, b2, b3 := ByteOf(n), ByteOf(n / 256), ByteOf(n / 65536), ByteOf(n / 16777216);
    assert U32(n) == [b0] + ([b1] + ([b2] + ([b3] + [])));
    NumberStep(b3, []);
    NumberStep(b2, [b3] + []);
    NumberStep(b1, [b2] + ([b3] + []));
    NumberStep(b0, [b1] + ([b2] + ([b3] + [])));
    FourDigits(n);
  }

  lemma NumberBound(bytes: seq<Byte>)
    ensures |bytes| == 2 ==> Number(bytes) < 0x1_0000
    ensures |bytes| == 4 ==> Number(bytes) < 0x1_0000_0000
  {
    hide Val, Number;
    NumberNone();
    if |bytes| == 2 {
      TwoBound(bytes);
    } else if |bytes| == 4 {
      TwoBound(bytes[2..]);
      assert bytes == [bytes[0]] + ([bytes[1]] + bytes[2..]);
      NumberStep(bytes[1], bytes[2..]);
      NumberStep(bytes[0], [bytes[1]] + bytes[2..]);
      ByteBound(bytes[0]);
      ByteBound(bytes[1]);
    }
  }

  lemma TwoBound(bytes: seq<Byte>)
    requires |bytes| == 2
    ensures Number(bytes) < 0x1_0000
  {
    hide Val, Number;
    NumberNone();
    assert bytes == [bytes[0]] + ([bytes[1]] + []);
    NumberStep(bytes[1], []);
    NumberStep(bytes[0], [bytes[1]] + []);
    ByteBound(bytes[0]);
    ByteBound(bytes[1]);
  }

  // ---- records of fixed-width fields ---------------------------------------------------

  datatype Field = F16(value: nat) | F32(value: nat)

  function Width(f: Field): nat {
    if f.F16? then 2 else 4
  }

  function Encode(f: Field): seq<Byte> {
    if f.F16? then U16(f.value) else U32(f.value)
  }

  function Record(fields: seq<Field>): seq<Byte> {
    if fields == [] then [] else Encode(fields[0]) + Record(fields[1..])
  }

  predicate FieldFits(f: Field) {
    if f.F16? then f.value < 0x1_0000 else f.value < 0x1_0000_0000
  }

  function Widths(fields: seq<Field>): seq<nat> {
    seq(|fields|, i requires 0 <= i < |fields| => Width(fields[i]))
  }

  function Values(fields: seq<Field>): seq<nat> {
    seq(|fields|, i requires 0 <= i < |fields| => fields[i].value)
  }

  /** Numbers of the given widths, and what follows them. */
  function ReadRecord(widths: seq<nat>, bytes: seq<Byte>): Option<(seq<nat>, seq<Byte>)> {
    if widths == [] then Some(([], bytes))
    else if |bytes| < widths[0] then None
    else
      match ReadRecord(widths[1..], bytes[widths[0]..])
      case None => None
      case Some((values, rest)) => Some(([Number(bytes[..widths[0]])] + values, rest))
  }

  lemma EncodeBack(f: Field)
    requires FieldFits(f)
    ensures |Encode(f)| == Width(f) && Number(Encode(f)) == f.value
  {
    if f.F16? { U16Back(f.value); } else { U32Back(f.value); }
  }

  lemma ReadStep(w: nat, ws: seq<nat>, head: seq<Byte>, rest: seq<Byte>)
    requires |head| == w && ReadRecord(ws, rest).Some?
    ensures ReadRecord([w] + ws, head + rest) ==
      Some(([Number(head)] + ReadRecord(ws, rest).value.0, ReadRecord(ws, rest).value.1))
  {
    hide Number;
    assert ([w] + ws)[1..] == ws && (head + rest)[..w] == head && (head + rest)[w..] == rest;
  }

  /** A record followed by anything reads back to its values and what follows. */
  lemma {:induction false} RecordBack(fields: seq<Field>, rest: seq<Byte>)
    requires forall f :: f in fields ==> FieldFits(f)
    ensures ReadRecord(Widths(fields), Record(fields) + rest) == Some((Values(fields), rest))
  {
    hide Record, ReadRecord, Widths, Values, Encode, Number, FieldFits, Width;
    if fields == [] {
      NoFields(rest);
    } else {
      var f, fs := fields[0], fields[1..];
      EncodeBack(f);
      RecordBack(fs, rest);
      ReadStep(Width(f), Widths(fs), Encode(f), Record(fs) + rest);
      RecordStep(fields, rest);
    }
  }

  lemma NoFields(rest: seq<Byte>)
    ensures ReadRecord(Widths([]), Record([]) + rest) == Some((Values([]), rest))
  {
    hide Number;
    assert Record([]) + rest == rest && Widths([]) == [] && Values([]) == [];
  }

  lemma RecordStep(fields: seq<Field>, rest: seq<Byte>)
    requires fields != []
    ensures Record(fields) + rest == Encode(fields[0]) + (Record(fields[1..]) + rest)
    ensures Widths(fields) == [Width(fields[0])] + Widths(fields[1..])
    ensures Values(fields) == [fields[0].value] + Values(fields[1..])
  {
    hide Encode, Width;
  }

  lemma {:induction false} ReadRecordCount(widths: seq<nat>, bytes: seq<Byte>)
    requires ReadRecord(widths, bytes).Some?
    ensures |ReadRecord(widths, bytes).value.0| == |widths|
    ensures |ReadRecord(widths, bytes).value.1| <= |bytes|
    ensures forall i :: 0 <= i < |widths| && widths[i] == 2 ==> ReadRecord(widths, bytes).value.0[i] < 0x1_0000
    ensures forall i :: 0 <= i < |widths| && widths[i] == 4 ==> ReadRecord(widths, bytes).value.0[i] < 0x1_0000_0000
  {
    hide Number;
    if widths != [] {
      NumberBound(bytes[..widths[0]]);
      ReadRecordCount(widths[1..], bytes[widths[0]..]);
    }
  }

  // ---- the three kinds of record -------------------------------------------------------

  const LOCAL_SIG := 0x04034b50
  const CENTRAL_SIG := 0x02014b50
  const END_SIG := 0x06054b50
  const UTF8_FLAG := 0x0800
  const VERSION := 20
  const END_SIZE := 22

  function Checksum(data: seq<Byte>): nat {
    Bitwise(data).bits as int
  }

  function LocalFields(e: Entry): seq<Field> {
    [F32(LOCAL_SIG), F16(VERSION), F16(UTF8_FLAG), F16(0), F16(0), F16(0),
     F32(Checksum(e.content)), F32(|e.content|), F32(|e.content|), F16(|e.name|), F16(0)]
  }

  function CentralFields(e: Entry, offset: nat): seq<Field> {
    [F32(CENTRAL_SIG), F16(VERSION), F16(VERSION), F16(UTF8_FLAG), F16(0), F16(0), F16(0),
     F32(Checksum(e.content)), F32(|e.content|), F32(|e.content|), F16(|e.name|), F16(0), F16(0), F16(0), F16(0), F32(0), F32(offset)]
  }

  function EndFields(count: nat, size: nat, offset: nat): seq<Field> {
    [F32(END_SIG), F16(0), F16(0), F16(count), F16(count), F32(size), F32(offset), F16(0)]
  }

  const LOCAL_WIDTHS: seq<nat> := [4, 2, 2, 2, 2, 2, 4, 4, 4, 2, 2]
  const CENTRAL_WIDTHS: seq<nat> := [4, 2, 2, 2, 2, 2, 2, 4, 4, 4, 2, 2, 2, 2, 2, 4, 4]
  const END_WIDTHS: seq<nat> := [4, 2, 2, 2, 2, 4, 4, 2]

  function Local(e: Entry): seq<Byte> {
    Record(LocalFields(e)) + e.name
  }

  function Central(e: Entry, offset: nat): seq<Byte> {
    Record(CentralFields(e, offset)) + e.name
  }

  function Locals(es: seq<Entry>): seq<Byte> {
    if es == [] then [] else Local(es[0]) + es[0].content + Locals(es[1..])
  }

  function Centrals(es: seq<Entry>, offset: nat): seq<Byte> {
    if es == [] then []
    else Central(es[0], offset) + Centrals(es[1..], offset + |Local(es[0])| + |es[0].content|)
  }

  function Archive(es: seq<Entry>): seq<Byte> {
    var central := Centrals(es, 0);
    Locals(es) + central + Record(EndFields(|es|, |central|, |Locals(es)|))
  }

  // ---- the reader ----------------------------------------------------------------------

  /** The entry whose local header is at `offset`. That header must ask for version 2.0, be stored with
      UTF-8 names, and repeat the name, checksum and both sizes the central directory recorded. */
  function ReadLocal(b: seq<Byte>, offset: nat, name: seq<Byte>, crc: nat, size: nat): Option<Entry> {
    if offset > |b| then None
    else
      match ReadRecord(LOCAL_WIDTHS, b[offset..])
      case None => None
      case Some((v, rest)) =>
        if |v| != 11 || v[0] != LOCAL_SIG || v[1] != VERSION || v[2] != UTF8_FLAG || v[3] != 0 then None
        else if v[6] != crc || v[7] != size || v[8] != size then None
        else if v[9] != |name| || |rest| < v[9] + v[10] + size then None
        else
          var data := rest[v[9] + v[10]..][..size];
          if rest[..v[9]] != name || Checksum(data) != crc then None else Some(Entry(name, data))
  }

  /** `count` central headers, each followed to its local header. */
  function ReadEntries(b: seq<Byte>, directory: seq<Byte>, count: nat): Option<seq<Entry>>
    decreases count
  {
    if count == 0 then (if directory == [] then Some([]) else None)
    else
      match ReadRecord(CENTRAL_WIDTHS, directory)
      case None => None
      case Some((v, rest)) =>
        if |v| != 17 || v[0] != CENTRAL_SIG || v[2] != VERSION || v[3] != UTF8_FLAG || v[4] != 0 then None
        else if v[8] != v[9] || v[13] != 0 || |rest| < v[10] + v[11] + v[12] then None
        else
          match ReadLocal(b, v[16], rest[..v[10]], v[7], v[9])
          case None => None
          case Some(e) =>
            match ReadEntries(b, rest[v[10] + v[11] + v[12]..], count - 1)
            case None => None
            case Some(es) => Some([e] + es)
  }

  /** Where the end record starts: the last place whose signature matches and whose comment runs
      exactly to the end of the file. */
  function FindEnd(b: seq<Byte>, at: nat): Option<nat>
    requires at + END_SIZE <= |b|
    decreases at
  {
    match ReadRecord(END_WIDTHS, b[at..])
    case Some((v, rest)) =>
      if |v| == 8 && v[0] == END_SIG && v[7] == |rest| then Some(at)
      else if at == 0 then None else FindEnd(b, at - 1)
    case None => if at == 0 then None else FindEnd(b, at - 1)
  }

  function ReadZip(b: seq<Byte>): Option<seq<Entry>> {
    if |b| < END_SIZE then None
    else
      match FindEnd(b, |b| - END_SIZE)
      case None => None
      case Some(at) =>
        if at > |b| then None
        else
          match ReadRecord(END_WIDTHS, b[at..])
          case None => None
          case Some((v, _)) =>
            if |v| != 8 || v[1] != 0 || v[2] != 0 || v[3] != v[4] || v[6] + v[5] > at then None
            else ReadEntries(b, b[v[6]..v[6] + v[5]], v[4])
  }

  // ---- the reader undoes the writer ----------------------------------------------------

  predicate EntryFits(e: Entry) {
    |e.name| < 0x1_0000 && |e.content| < 0x1_0000_0000
  }

  /** Everything the writer records fits its 16- or 32-bit field. */
  predicate Fits(es: seq<Entry>) {
    && (forall e :: e in es ==> EntryFits(e))
    && |es| < 0x1_0000 && |Locals(es)| < 0x1_0000_0000 && |Centrals(es, 0)| < 0x1_0000_0000
  }

  lemma ChecksumFits(data: seq<Byte>)
    ensures Checksum(data) < 0x1_0000_0000
  {
    hide Bitwise;
  }

  lemma LocalShape(e: Entry)
    requires EntryFits(e)
    ensures forall f :: f in LocalFields(e) ==> FieldFits(f)
    ensures Widths(LocalFields(e)) == LOCAL_WIDTHS && |Values(LocalFields(e))| == 11
    ensures var v := Values(LocalFields(e));
      && v[0] == LOCAL_SIG && v[1] == VERSION && v[2] == UTF8_FLAG && v[3] == 0 && v[6] == Checksum(e.content)
      && v[7] == v[8] == |e.content| && v[9] == |e.name| && v[10] == 0
  {
    hide Checksum;
    ChecksumFits(e.content);
  }

  lemma LocalBack(b: seq<Byte>, offset: nat, e: Entry, tail: seq<Byte>)
    requires EntryFits(e) && offset <= |b| && b[offset..] == Local(e) + e.content + tail
    ensures ReadLocal(b, offset, e.name, Checksum(e.content), |e.content|) == Some(e)
  {
    hide Checksum, Record, ReadRecord, LocalFields, Values, Widths, FieldFits;
    LocalShape(e);
    var rest := e.name + (e.content + tail);
    assert Local(e) + e.content + tail == Record(LocalFields(e)) + rest;
    RecordBack(LocalFields(e), rest);
    assert rest[..|e.name|] == e.name;
    assert rest[|e.name| + 0..] == e.content + tail;
    assert (e.content + tail)[..|e.content|] == e.content;
  }

  lemma CentralShape(e: Entry, offset: nat)
    requires EntryFits(e) && offset < 0x1_0000_0000
    ensures forall f :: f in CentralFields(e, offset) ==> FieldFits(f)
    ensures Widths(CentralFields(e, offset)) == CENTRAL_WIDTHS && |Values(CentralFields(e, offset))| == 17
    ensures var v := Values(CentralFields(e, offset));
      && v[0] == CENTRAL_SIG && v[2] == VERSION && v[3] == UTF8_FLAG && v[4] == v[13] == 0 && v[7] == Checksum(e.content) && v[8] == v[9] == |e.content|
      && v[10] == |e.name| && v[11] == v[12] == 0 && v[16] == offset
  {
    hide Checksum;
    ChecksumFits(e.content);
  }

  lemma {:induction false} EntriesBack(b: seq<Byte>, es: seq<Entry>, offset: nat, post: seq<Byte>)
    requires offset <= |b| && b[offset..] == Locals(es) + post
    requires (forall e :: e in es ==> EntryFits(e)) && offset + |Locals(es)| < 0x1_0000_0000
    ensures ReadEntries(b, Centrals(es, offset), |es|) == Some(es)
    decreases |es|
  {
    hide Local, Central, Locals, ReadLocal, Checksum, EntryFits;
    if es == [] {
      hide *;
      NoEntries(b, offset);
    } else {
      hide ReadEntries, Centrals;
      var e, rest := es[0], es[1..];
      var next := offset + |Local(e)| + |e.content|;
      NextLocal(b, es, offset, post);
      EntriesBack(b, rest, next, post);
      LocalBack(b, offset, e, Locals(rest) + post);
      OneEntry(b, e, offset, Centrals(rest, next), rest);
      CentralsStep(es, offset);
      assert [e] + rest == es;
    }
  }

  lemma NoEntries(b: seq<Byte>, offset: nat)
    ensures ReadEntries(b, Centrals([], offset), 0) == Some([])
  {
  }

  lemma CentralsStep(es: seq<Entry>, offset: nat)
    requires es != []
    ensures Centrals(es, offset) ==
      Central(es[0], offset) + Centrals(es[1..], offset + |Local(es[0])| + |es[0].content|)
  {
    hide Local, Central;
  }

  lemma NextLocal(b: seq<Byte>, es: seq<Entry>, offset: nat, post: seq<Byte>)
    requires es != [] && offset <= |b| && b[offset..] == Locals(es) + post
    ensures var next := offset + |Local(es[0])| + |es[0].content|;
      && next <= |b| && b[next..] == Locals(es[1..]) + post
      && b[offset..] == Local(es[0]) + es[0].content + (Locals(es[1..]) + post)
      && next + |Locals(es[1..])| == offset + |Locals(es)|
  {
    hide *;
    LocalsStep(es);
    SkipHead(b, offset, Local(es[0]) + es[0].content, Locals(es[1..]) + post);
    Regroup(Local(es[0]), es[0].content, Locals(es[1..]), post);
  }

  lemma LocalsStep(es: seq<Entry>)
    requires es != []
    ensures Locals(es) == Local(es[0]) + es[0].content + Locals(es[1..])
  {
  }

  lemma Regroup(a: seq<Byte>, b: seq<Byte>, c: seq<Byte>, d: seq<Byte>)
    ensures a + b + c + d == (a + b) + (c + d)
  {
  }

  lemma SkipHead(b: seq<Byte>, offset: nat, head: seq<Byte>, tail: seq<Byte>)
    requires offset <= |b| && b[offset..] == head + tail
    ensures offset + |head| <= |b| && b[offset + |head|..] == tail
  {
    assert b[offset + |head|..] == b[offset..][|head|..];
  }

  lemma OneEntry(b: seq<Byte>, e: Entry, offset: nat, more: seq<Byte>, es: seq<Entry>)
    requires EntryFits(e) && offset < 0x1_0000_0000
    requires ReadLocal(b, offset, e.name, Checksum(e.content), |e.content|) == Some(e)
    requires ReadEntries(b, more, |es|) == Some(es)
    ensures ReadEntries(b, Central(e, offset) + more, |es| + 1) == Some([e] + es)
  {
    hide Checksum, Record, ReadRecord, CentralFields, Values, Widths, FieldFits, ReadLocal;
    CentralShape(e, offset);
    var rest := e.name + more;
    assert Central(e, offset) + more == Record(CentralFields(e, offset)) + rest;
    RecordBack(CentralFields(e, offset), rest);
    assert rest[..|e.name|] == e.name;
    assert rest[|e.name| + 0 + 0..] == more;
  }

  lemma {:induction false} RecordSize(fields: seq<Field>)
    ensures |Record(fields)| <= 4 * |fields|
    ensures |fields| == 8 && Widths(fields) == END_WIDTHS ==> |Record(fields)| == END_SIZE
  {
    hide Encode, FieldFits;
    SizeIsSum(fields);
    if |fields| == 8 && Widths(fields) == END_WIDTHS { EndSum(fields); }
  }

  function SumWidths(fields: seq<Field>): nat {
    if fields == [] then 0 else Width(fields[0]) + SumWidths(fields[1..])
  }

  lemma {:induction false} SizeIsSum(fields: seq<Field>)
    ensures |Record(fields)| == SumWidths(fields) <= 4 * |fields|
  {
    if fields != [] { SizeIsSum(fields[1..]); }
  }

  lemma EndSum(fields: seq<Field>)
    requires |fields| == 8 && Widths(fields) == END_WIDTHS
    ensures SumWidths(fields) == END_SIZE
  {
    var w := Widths(fields);
    assert w[0] == 4 && w[1] == 2 && w[2] == 2 && w[3] == 2 && w[4] == 2 && w[5] == 4 && w[6] == 4 && w[7] == 2;
    assert SumWidths(fields[7..]) == Width(fields[7]);
    assert SumWidths(fields[6..]) == Width(fields[6]) + SumWidths(fields[7..]);
    assert SumWidths(fields[5..]) == Width(fields[5]) + SumWidths(fields[6..]);
    assert SumWidths(fields[4..]) == Width(fields[4]) + SumWidths(fields[5..]);
    assert SumWidths(fields[3..]) == Width(fields[3]) + SumWidths(fields[4..]);
    assert SumWidths(fields[2..]) == Width(fields[2]) + SumWidths(fields[3..]);
    assert SumWidths(fields[1..]) == Width(fields[1]) + SumWidths(fields[2..]);
    assert fields[0..] == fields;
  }

  lemma EndBack(b: seq<Byte>, pre: seq<Byte>, count: nat, size: nat, offset: nat)
    requires count < 0x1_0000 && size < 0x1_0000_0000 && offset < 0x1_0000_0000
    requires b == pre + Record(EndFields(count, size, offset))
    ensures |b| == |pre| + END_SIZE && FindEnd(b, |pre|) == Some(|pre|)
    ensures ReadRecord(END_WIDTHS, b[|pre|..]) == Some(([END_SIG, 0, 0, count, count, size, offset, 0], []))
  {
    hide Record, ReadRecord, FieldFits, Widths, Values;
    var fields := EndFields(count, size, offset);
    EndShape(count, size, offset);
    RecordSize(fields);
    RecordBack(fields, []);
    assert b[|pre|..] == Record(fields) + [];
  }

  lemma EndShape(count: nat, size: nat, offset: nat)
    requires count < 0x1_0000 && size < 0x1_0000_0000 && offset < 0x1_0000_0000
    ensures var fields := EndFields(count, size, offset);
      && (forall f :: f in fields ==> FieldFits(f))
      && Widths(fields) == END_WIDTHS && Values(fields) == [END_SIG, 0, 0, count, count, size, offset, 0]
  {
  }

  // ---- the layout, byte by byte --------------------------------------------------------

  function Digits(b: seq<Byte>, from: nat, to: nat): nat
    requires from <= to <= |b|
  {
    Number(b[from..to])
  }

  /** The field at place `i` of a record stands after those before it, whatever follows. */
  lemma {:induction false} FieldAt(fields: seq<Field>, rest: seq<Byte>, i: nat, at: nat)
    requires i < |fields| && FieldFits(fields[i]) && at == SumWidths(fields[..i])
    ensures at + Width(fields[i]) == SumWidths(fields[..i + 1])
    ensures at + Width(fields[i]) <= |Record(fields) + rest|
    ensures Digits(Record(fields) + rest, at, at + Width(fields[i])) == fields[i].value
  {
    hide Number, SumWidths, Record, FieldFits;
    var before, f, after := fields[..i], fields[i], fields[i + 1..];
    assert fields[..i + 1] == before + [f] && fields == before + ([f] + after);
    SumSnoc(before, f);
    RecordAppend(before, [f] + after);
    RecordAppend([f], after);
    SizeIsSum(before);
    EncodeBack(f);
    RecordOne(f);
    Cut(Record(before), Encode(f), Record(after) + rest);
    assert Record(fields) + rest == Record(before) + Encode(f) + (Record(after) + rest);
  }

  lemma Cut(a: seq<Byte>, b: seq<Byte>, c: seq<Byte>)
    ensures (a + b + c)[|a|..|a| + |b|] == b
  {
  }

  lemma RecordOne(f: Field)
    ensures Record([f]) == Encode(f)
  {
    assert [f][1..] == [];
    assert Record([f]) == Encode(f) + Record([f][1..]);
  }

  lemma {:induction false} SumSnoc(fields: seq<Field>, f: Field)
    ensures SumWidths(fields + [f]) == SumWidths(fields) + Width(f)
  {
    if fields == [] {
      assert [f][1..] == [];
    } else {
      assert (fields + [f])[1..] == fields[1..] + [f];
      SumSnoc(fields[1..], f);
    }
  }

  lemma {:induction false} RecordAppend(a: seq<Field>, b: seq<Field>)
    ensures Record(a + b) == Record(a) + Record(b)
  {
    if a == [] {
      assert a + b == b;
    } else {
      assert (a + b)[1..] == a[1..] + b;
      RecordAppend(a[1..], b);
    }
  }

  lemma NoWidth(fields: seq<Field>)
    ensures SumWidths(fields[..0]) == 0
  {
  }

  /** A local file header, byte by byte, as section 4.3.7 of the APPNOTE lays it out. */
  lemma LocalLayout(e: Entry)
    requires EntryFits(e)
    ensures var b := Local(e);
      && |b| == 30 + |e.name| && b[30..] == e.name
      && Digits(b, 0, 4) == 0x04034b50 && Digits(b, 4, 6) == 20 && Digits(b, 6, 8) == 0x0800 && Digits(b, 8, 10) == 0
      && Digits(b, 14, 18) == Bitwise(e.content).bits as int
      && Digits(b, 18, 22) == Digits(b, 22, 26) == |e.content|
      && Digits(b, 26, 28) == |e.name| && Digits(b, 28, 30) == 0
  {
    hide Record, Number, Bitwise, SumWidths;
    LocalShape(e);
    var fs := LocalFields(e);
    NoWidth(fs);
    FieldAt(fs, e.name, 0, 0);
    FieldAt(fs, e.name, 1, 4);
    FieldAt(fs, e.name, 2, 6);
    FieldAt(fs, e.name, 3, 8);
    FieldAt(fs, e.name, 4, 10);
    FieldAt(fs, e.name, 5, 12);
    FieldAt(fs, e.name, 6, 14);
    FieldAt(fs, e.name, 7, 18);
    FieldAt(fs, e.name, 8, 22);
    FieldAt(fs, e.name, 9, 26);
    FieldAt(fs, e.name, 10, 28);
    assert fs[..11] == fs;
    SizeIsSum(fs);
  }

  /** A central directory header, byte by byte, as section 4.3.12 lays it out. */
  lemma CentralLayout(e: Entry, offset: nat)
    requires EntryFits(e) && offset < 0x1_0000_0000
    ensures var b := Central(e, offset);
      && |b| == 46 + |e.name| && b[46..] == e.name
      && Digits(b, 0, 4) == 0x02014b50 && Digits(b, 4, 6) == Digits(b, 6, 8) == 20
      && Digits(b, 8, 10) == 0x0800 && Digits(b, 10, 12) == 0
      && Digits(b, 16, 20) == Bitwise(e.content).bits as int
      && Digits(b, 20, 24) == Digits(b, 24, 28) == |e.content| && Digits(b, 28, 30) == |e.name|
      && Digits(b, 30, 32) == Digits(b, 32, 34) == Digits(b, 34, 36) == Digits(b, 36, 38) == Digits(b, 38, 42) == 0
      && Digits(b, 42, 46) == offset
  {
    hide Record, Number, Bitwise, SumWidths;
    CentralShape(e, offset);
    var fs := CentralFields(e, offset);
    NoWidth(fs);
    FieldAt(fs, e.name, 0, 0);
    FieldAt(fs, e.name, 1, 4);
    FieldAt(fs, e.name, 2, 6);
    FieldAt(fs, e.name, 3, 8);
    FieldAt(fs, e.name, 4, 10);
    FieldAt(fs, e.name, 5, 12);
    FieldAt(fs, e.name, 6, 14);
    FieldAt(fs, e.name, 7, 16);
    FieldAt(fs, e.name, 8, 20);
    FieldAt(fs, e.name, 9, 24);
    FieldAt(fs, e.name, 10, 28);
    FieldAt(fs, e.name, 11, 30);
    FieldAt(fs, e.name, 12, 32);
    FieldAt(fs, e.name, 13, 34);
    FieldAt(fs, e.name, 14, 36);
    FieldAt(fs, e.name, 15, 38);
    FieldAt(fs, e.name, 16, 42);
    assert fs[..17] == fs;
    SizeIsSum(fs);
  }

  /** The end record, byte by byte, as section 4.3.16 lays it out. */
  lemma EndLayout(count: nat, size: nat, offset: nat)
    requires count < 0x1_0000 && size < 0x1_0000_0000 && offset < 0x1_0000_0000
    ensures var b := Record(EndFields(count, size, offset)) + [];
      && |b| == 22 && Digits(b, 0, 4) == 0x06054b50 && Digits(b, 4, 6) == Digits(b, 6, 8) == 0
      && Digits(b, 8, 10) == Digits(b, 10, 12) == count
      && Digits(b, 12, 16) == size && Digits(b, 16, 20) == offset && Digits(b, 20, 22) == 0
  {
    hide Record, Number, SumWidths;
    EndShape(count, size, offset);
    var fs := EndFields(count, size, offset);
    NoWidth(fs);
    FieldAt(fs, [], 0, 0);
    FieldAt(fs, [], 1, 4);
    FieldAt(fs, [], 2, 6);
    FieldAt(fs, [], 3, 8);
    FieldAt(fs, [], 4, 10);
    FieldAt(fs, [], 5, 12);
    FieldAt(fs, [], 6, 16);
    FieldAt(fs, [], 7, 20);
    assert fs[..8] == fs;
    SizeIsSum(fs);
  }

  /** Reading an archive from its end record, by the recorded offsets, gives back exactly the
      entries it was built from, names and bytes, in order. */
  lemma ReadBack(es: seq<Entry>)
    ensures Fits(es) ==> ReadZip(Archive(es)) == Some(es)
  {
    if Fits(es) { FittingReadBack(es); }
  }

  lemma FittingReadBack(es: seq<Entry>)
    requires Fits(es)
    ensures ReadZip(Archive(es)) == Some(es)
  {
    hide Locals, Centrals, Record, ReadRecord, FindEnd, ReadEntries, EndFields;
    var locals, central := Locals(es), Centrals(es, 0);
    var b, pre := Archive(es), locals + central;
    var end := Record(EndFields(|es|, |central|, |locals|));
    EndBack(b, pre, |es|, |central|, |locals|);
    assert b[0..] == locals + (central + end);
    EntriesBack(b, es, 0, central + end);
    assert b[|locals|..|locals| + |central|] == central;
  }

  // ---- the limits are real -------------------------------------------------------------

  lemma {:induction false} EntriesAreSmall(b: seq<Byte>, directory: seq<Byte>, count: nat)
    requires ReadEntries(b, directory, count).Some?
    ensures |ReadEntries(b, directory, count).value| == count
    ensures forall e :: e in ReadEntries(b, directory, count).value ==> EntryFits(e)
    decreases count
  {
    hide ReadRecord, ReadLocal;
    if count > 0 {
      ReadRecordCount(CENTRAL_WIDTHS, directory);
      var (v, rest) := ReadRecord(CENTRAL_WIDTHS, directory).value;
      assert CENTRAL_WIDTHS[9] == 4 && CENTRAL_WIDTHS[10] == 2;
      LocalIsAsked(b, v[16], rest[..v[10]], v[7], v[9]);
      EntriesAreSmall(b, rest[v[10] + v[11] + v[12]..], count - 1);
    }
  }

  lemma LocalIsAsked(b: seq<Byte>, offset: nat, name: seq<Byte>, crc: nat, size: nat)
    requires ReadLocal(b, offset, name, crc, size).Some?
    ensures var e := ReadLocal(b, offset, name, crc, size).value; e.name == name && |e.content| == size
  {
    hide ReadRecord, Checksum;
  }

  /** No archive at all reads back to a list with 65536 entries or more, or with a name or content
      too long for its field: those limits of the writer are necessary, whatever it writes. */
  lemma LimitsAreNecessary(b: seq<Byte>, es: seq<Entry>)
    requires ReadZip(b) == Some(es)
    ensures |es| < 0x1_0000 && forall e :: e in es ==> EntryFits(e)
  {
    hide ReadRecord, ReadEntries, FindEnd;
    var at := FindEnd(b, |b| - END_SIZE).value;
    ReadRecordCount(END_WIDTHS, b[at..]);
    assert END_WIDTHS[4] == 2;
    var v := ReadRecord(END_WIDTHS, b[at..]).value.0;
    EntriesAreSmall(b, b[v[6]..v[6] + v[5]], v[4]);
  }

  // ---- the writer's code ---------------------------------------------------------------

  function Flat(parts: seq<seq<Byte>>): seq<Byte> {
    if parts == [] then [] else parts[0] + Flat(parts[1..])
  }

  lemma {:induction false} FlatSnoc(parts: seq<seq<Byte>>, part: seq<Byte>)
    ensures Flat(parts + [part]) == Flat(parts) + part
  {
    if parts == [] {
      assert [part][1..] == [];
    } else {
      assert (parts + [part])[1..] == parts[1..] + [part];
      FlatSnoc(parts[1..], part);
    }
  }

  /** `concat`: the parts end to end. */
  method Concat(parts: seq<seq<Byte>>) returns (out: seq<Byte>)
    ensures out == Flat(parts)
  {
    out := [];
    for i := 0 to |parts|
      invariant out == Flat(parts[..i])
    {
      assert parts[..i + 1] == parts[..i] + [parts[i]];
      FlatSnoc(parts[..i], parts[i]);
      out := out + parts[i];
    }
    assert parts[..|parts|] == parts;
  }

  /** The fields of a header, encoded and put end to end. */
  method Header(fields: seq<Field>, name: seq<Byte>) returns (out: seq<Byte>)
    ensures out == Record(fields) + name
  {
    var parts: seq<seq<Byte>> := [];
    for i := 0 to |fields|
      invariant Flat(parts) == Record(fields[..i])
    {
      FlatSnoc(parts, Encode(fields[i]));
      RecordSnoc(fields[..i], fields[i]);
      assert fields[..i + 1] == fields[..i] + [fields[i]];
      parts := parts + [Encode(fields[i])];
    }
    assert fields[..|fields|] == fields;
    FlatSnoc(parts, name);
    out := Concat(parts + [name]);
  }

  lemma {:induction false} RecordSnoc(fields: seq<Field>, f: Field)
    ensures Record(fields + [f]) == Record(fields) + Encode(f)
  {
    if fields == [] {
      assert [f][1..] == [];
    } else {
      assert (fields + [f])[1..] == fields[1..] + [f];
      RecordSnoc(fields[1..], f);
    }
  }

  /** `buildZip`: one pass over the entries, collecting local parts and central headers and
      keeping the running offset. */
  method BuildZip(table: seq<Reg>, entries: seq<Entry>) returns (archive: seq<Byte>)
    requires IsTable(table)
    ensures archive == Archive(entries)
    ensures Fits(entries) ==> ReadZip(archive) == Some(entries)
  {
    hide LocalFields, CentralFields, EndFields, Record, IsTable, Local, Central, Fits, ReadZip;
    var locals: seq<seq<Byte>>, central: seq<seq<Byte>> := [], [];
    var offset := 0;
    for i := 0 to |entries|
      invariant Flat(locals) == Locals(entries[..i])
      invariant Flat(central) == Centrals(entries[..i], 0)
      invariant offset == |Locals(entries[..i])|
    {
      var entry := entries[i];
      var localHeader := LocalHeader(table, entry);
      var centralHeader := CentralHeader(table, entry, offset);
      assert entries[..i + 1] == entries[..i] + [entry];
      LocalsSnoc(entries[..i], entry);
      CentralsSnoc(entries[..i], entry, 0);
      FlatSnoc(locals, localHeader);
      FlatSnoc(locals + [localHeader], entry.content);
      FlatSnoc(central, centralHeader);
      locals := locals + [localHeader] + [entry.content];
      central := central + [centralHeader];
      offset := offset + |localHeader| + |entry.content|;
    }
    assert entries[..|entries|] == entries;
    var centralBytes := Concat(central);
    var end := Header(EndFields(|entries|, |centralBytes|, offset), []);
    FlatSnoc(locals, centralBytes);
    FlatSnoc(locals + [centralBytes], end);
    archive := Concat(locals + [centralBytes] + [end]);
    ReadBack(entries);
  }

  method LocalHeader(table: seq<Reg>, entry: Entry) returns (out: seq<Byte>)
    requires IsTable(table)
    ensures out == Local(entry)
  {
    hide Record;
    var crc := Crc32(table, entry.content);
    out := Header([F32(LOCAL_SIG), F16(VERSION), F16(UTF8_FLAG), F16(0), F16(0), F16(0), F32(crc.bits as int),
                   F32(|entry.content|), F32(|entry.content|), F16(|entry.name|), F16(0)], entry.name);
  }

  method CentralHeader(table: seq<Reg>, entry: Entry, offset: nat) returns (out: seq<Byte>)
    requires IsTable(table)
    ensures out == Central(entry, offset)
  {
    hide Record;
    var crc := Crc32(table, entry.content);
    out := Header([F32(CENTRAL_SIG), F16(VERSION), F16(VERSION), F16(UTF8_FLAG), F16(0), F16(0), F16(0), F32(crc.bits as int),
                   F32(|entry.content|), F32(|entry.content|), F16(|entry.name|), F16(0), F16(0), F16(0), F16(0), F32(0), F32(offset)],
                  entry.name);
  }

  lemma {:induction false} LocalsSnoc(es: seq<Entry>, e: Entry)
    ensures Locals(es + [e]) == Locals(es) + Local(e) + e.content
  {
    hide Local;
    if es == [] {
      assert [e][1..] == [];
    } else {
      assert (es + [e])[1..] == es[1..] + [e];
      LocalsSnoc(es[1..], e);
    }
  }

  lemma {:induction false} CentralsSnoc(es: seq<Entry>, e: Entry, offset: nat)
    ensures Centrals(es + [e], offset) == Centrals(es, offset) + Central(e, offset + |Locals(es)|)
    decreases |es|
  {
    hide Local, Central;
    if es == [] {
      assert [e][1..] == [];
    } else {
      assert (es + [e])[1..] == es[1..] + [e];
      CentralsSnoc(es[1..], e, offset + |Local(es[0])| + |es[0].content|);
    }
  }
}
