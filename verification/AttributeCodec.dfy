/** Netlink attributes: the writer and the reader, which live in different files (section 2.2 of RFC 3549). */
module AttributeCodec {
  import opened Entities

  type Byte = x: int | 0 <= x < 256

  /** A type and a payload; the length on the wire counts the four header bytes too. */
  datatype Attribute = Attribute(typ: nat, payload: seq<Byte>)

  const HEADER := 4
  const LIMIT := 65536

  predicate Fits(a: Attribute) {
    a.typ < LIMIT && HEADER + |a.payload| < LIMIT
  }

  function Align(n: nat): (m: nat)
    ensures n <= m < n + 4 && m % 4 == 0
  {
    (n + 3) / 4 * 4
  }

  // ---------- Writing ----------

  function Low(n: nat): Byte {
    n % 256
  }

  function High(n: nat): Byte
    requires n < LIMIT
  {
    n / 256
  }

  function Zeros(n: nat): seq<Byte> {
    seq(n, _ => 0)
  }

  function Head(length: nat, typ: nat): seq<Byte>
    requires length < LIMIT && typ < LIMIT
  {
    [Low(length), High(length), Low(typ), High(typ)]
  }

  function Encode(a: Attribute): seq<Byte>
    requires Fits(a)
  {
    var length := HEADER + |a.payload|;
    Head(length, a.typ) + a.payload + Zeros(Align(length) - length)
  }

  predicate AllFit(list: seq<Attribute>) {
    forall i :: 0 <= i < |list| ==> Fits(list[i])
  }

  function EncodeAll(list: seq<Attribute>): seq<Byte>
    requires AllFit(list)
  {
    if list == [] then [] else Encode(list[0]) + EncodeAll(list[1..])
  }

  class Message {
    var bytes: seq<Byte>
    /** The attributes appended so far. */
    ghost var written: seq<Attribute>

    ghost predicate Consistent()
      reads this
    {
      AllFit(written) && bytes == EncodeAll(written)
    }

    constructor ()
      ensures Consistent() && written == []
    {
      bytes, written := [], [];
    }

    /**
     * Grows the message to its new size, then fills in header, payload and padding. However the message was built up,
     * reading it gives the attributes appended.
     */
    method AppendAttribute(typ: nat, data: seq<Byte>)
      requires Consistent() && Fits(Attribute(typ, data))
      modifies this
      ensures bytes == old(bytes) + Encode(Attribute(typ, data)) && written == old(written) + [Attribute(typ, data)]
      ensures Consistent()
      ensures Parse(bytes, 0).valid && Attributes(Parse(bytes, 0).found) == written
    {
      Place(typ, data);
      written := written + [Attribute(typ, data)];
      EncodeSnoc(old(written), Attribute(typ, data));
      hide Encode, EncodeAll, Parse, Attributes, Fits;
      RoundTrip(written, 0);
    }

    method Place(typ: nat, data: seq<Byte>)
      requires Fits(Attribute(typ, data))
      modifies this`bytes
      ensures bytes == old(bytes) + Encode(Attribute(typ, data))
    {
      var offset := |bytes|;
      var length := HEADER + |data|;
      var size := Align(length);
      bytes := bytes + Zeros(size);
      bytes := bytes[offset := Low(length)][offset + 1 := High(length)][offset + 2 := Low(typ)][offset + 3 := High(typ)];
      HeaderPlaced(old(bytes), size, length, typ);
      hide Head, Zeros, Low, High;
      ghost var start := old(bytes) + Head(length, typ);
      for i := 0 to |data|
        invariant bytes == start + data[..i] + Zeros(size - HEADER - i)
      {
        ReplaceZero(start + data[..i], size - HEADER - i, data[i]);
        bytes := bytes[offset + HEADER + i := data[i]];
        assert start + data[..i] + [data[i]] == start + data[..i + 1];
      }
      assert data[..|data|] == data;
      assert bytes == old(bytes) + (Head(length, typ) + data + Zeros(size - length));
    }

    /** A scalar of `width` bytes; the last attribute read back carries its value. */
    method AppendScalar(typ: nat, value: nat, width: nat)
      requires Consistent() && Fits(Attribute(typ, ScalarBytes(value, width))) && value < Power256(width)
      modifies this
      ensures Consistent() && written == old(written) + [Attribute(typ, ScalarBytes(value, width))]
      ensures var found := Parse(bytes, 0).found;
              found != [] && ScalarValue(found[|found| - 1].attribute.payload) == value
    {
      AppendAttribute(typ, ScalarBytes(value, width));
      ScalarRoundTrip(value, width);
      hide Parse, ScalarBytes, ScalarValue, EncodeAll;
      ghost var found := Parse(bytes, 0).found;
      assert Attributes(found)[|found| - 1] == found[|found| - 1].attribute;
    }
  }

  /** Appending at the end writes what writing the longer list would. */
  lemma {:induction false} EncodeSnoc(list: seq<Attribute>, a: Attribute)
    requires AllFit(list) && Fits(a)
    ensures AllFit(list + [a]) && EncodeAll(list + [a]) == EncodeAll(list) + Encode(a)
  {
    hide Encode, Fits;
    if list == [] {
      assert list + [a] == [a] && [a][1..] == [];
      assert EncodeAll([a]) == Encode(a) + [];
    } else {
      EncodeSnoc(list[1..], a);
      assert (list + [a])[1..] == list[1..] + [a];
      assert EncodeAll(list + [a]) == Encode(list[0]) + (EncodeAll(list[1..]) + Encode(a));
    }
  }

  lemma HeaderPlaced(before: seq<Byte>, size: nat, length: nat, typ: nat)
    requires size >= HEADER && length < LIMIT && typ < LIMIT
    ensures var n := |before|;
            (before + Zeros(size))[n := Low(length)][n + 1 := High(length)][n + 2 := Low(typ)][n + 3 := High(typ)] ==
            before + Head(length, typ) + Zeros(size - HEADER)
  {
  }

  lemma ReplaceZero(before: seq<Byte>, n: nat, x: Byte)
    requires n > 0
    ensures (before + Zeros(n))[|before| := x] == before + [x] + Zeros(n - 1)
  {
  }

  // ---------- Reading ----------

  /** An attribute and where it starts, counted from the start of the buffer. */
  datatype Found = Found(offset: nat, attribute: Attribute)

  datatype Parsed = Parsed(found: seq<Found>, valid: bool)

  function LengthAt(data: seq<Byte>): nat
    requires |data| >= HEADER
  {
    (data[0] as int) + 256 * (data[1] as int)
  }

  function TypeAt(data: seq<Byte>): nat
    requires |data| >= HEADER
  {
    (data[2] as int) + 256 * (data[3] as int)
  }

  predicate HeaderOk(data: seq<Byte>) {
    |data| >= HEADER && HEADER <= LengthAt(data) <= |data|
  }

  function FirstAttribute(data: seq<Byte>): Attribute
    requires HeaderOk(data)
  {
    Attribute(TypeAt(data), data[HEADER..LengthAt(data)])
  }

  /** The attributes of `data`, which starts `base` bytes into the buffer. */
  function Parse(data: seq<Byte>, base: nat): Parsed
    decreases |data|
  {
    if data == [] then Parsed([], true)
    else if !HeaderOk(data) then Parsed([], false)
    else
      var (first, step) := (Found(base, FirstAttribute(data)), Align(LengthAt(data)));
      if step > |data| then Parsed([first], false)
      else
        var rest := Parse(data[step..], base + step);
        Parsed([first] + rest.found, rest.valid)
  }

  /** The loop of the source: a cursor and what remains. */
  method ReadAttributes(data: seq<Byte>) returns (found: seq<Found>, valid: bool)
    ensures Parsed(found, valid) == Parse(data, 0)
  {
    hide Parse, FirstAttribute, LengthAt;
    found := [];
    var cursor := 0;
    assert data[0..] == data;
    while cursor < |data|
      invariant cursor <= |data|
      invariant Parse(data, 0) == Joined(found, Parse(data[cursor..], cursor))
    {
      var rest := data[cursor..];
      ParseStep(rest, cursor);
      if |rest| < HEADER || LengthAt(rest) < HEADER || LengthAt(rest) > |rest| {
        assert found + [] == found;
        return found, false;
      }
      ghost var before := found;
      var first := Found(cursor, FirstAttribute(rest));
      found := found + [first];
      var aligned := Align(LengthAt(rest));
      if aligned > |rest| { return found, false; }
      assert data[cursor + aligned..] == rest[aligned..];
      cursor := cursor + aligned;
      assert before + ([first] + Parse(data[cursor..], cursor).found) == found + Parse(data[cursor..], cursor).found;
    }
    assert data[cursor..] == [] && found + [] == found;
    ParseNothing(cursor);
    valid := true;
  }

  function Joined(found: seq<Found>, rest: Parsed): Parsed {
    Parsed(found + rest.found, rest.valid)
  }

  lemma ParseNothing(base: nat)
    ensures Parse([], base) == Parsed([], true)
  {
  }

  /** One round of the loop. */
  lemma ParseStep(data: seq<Byte>, base: nat)
    requires data != []
    ensures !HeaderOk(data) ==> Parse(data, base) == Parsed([], false)
    ensures HeaderOk(data) ==>
              var (first, step) := (Found(base, FirstAttribute(data)), Align(LengthAt(data)));
              Parse(data, base) == if step > |data| then Parsed([first], false)
                                   else Joined([first], Parse(data[step..], base + step))
  {
    hide FirstAttribute, LengthAt;
  }

  // ---------- Round trip ----------

  function Attributes(found: seq<Found>): seq<Attribute> {
    seq(|found|, i requires 0 <= i < |found| => found[i].attribute)
  }

  lemma AttributesCons(f: Found, rest: seq<Found>)
    ensures Attributes([f] + rest) == [f.attribute] + Attributes(rest)
  {
  }

  lemma ReadStep(data: seq<Byte>, base: nat)
    requires HeaderOk(data) && Align(LengthAt(data)) <= |data|
    ensures var step := Align(LengthAt(data));
            var (p, rest) := (Parse(data, base), Parse(data[step..], base + step));
            p.valid == rest.valid && Attributes(p.found) == [FirstAttribute(data)] + Attributes(rest.found)
  {
    assert |data| >= HEADER;
    hide FirstAttribute, HeaderOk, LengthAt, Parse, Attributes;
    var step := Align(LengthAt(data));
    ParseStep(data, base);
    AttributesCons(Found(base, FirstAttribute(data)), Parse(data[step..], base + step).found);
  }

  lemma EncodedHeader(a: Attribute, rest: seq<Byte>)
    requires Fits(a)
    ensures var data := Encode(a) + rest;
            && HeaderOk(data) && FirstAttribute(data) == a && Align(LengthAt(data)) == |Encode(a)|
            && data[|Encode(a)|..] == rest
  {
    var data := Encode(a) + rest;
    var length := HEADER + |a.payload|;
    assert data[0] == Low(length) && data[1] == High(length) && data[2] == Low(a.typ) && data[3] == High(a.typ);
    assert LengthAt(data) == length && TypeAt(data) == a.typ;
    assert data[HEADER..length] == a.payload;
  }

  /** Reading back any list of attributes that were written one after the other gives exactly that list. */
  lemma {:induction false} RoundTrip(list: seq<Attribute>, base: nat)
    requires AllFit(list)
    ensures var p := Parse(EncodeAll(list), base); p.valid && Attributes(p.found) == list
  {
    if list == [] {
      ParseNothing(base);
    } else {
      var (a, tail) := (list[0], EncodeAll(list[1..]));
      assert EncodeAll(list) == Encode(a) + tail && list == [a] + list[1..];
      EncodedHeader(a, tail);
      hide Encode, EncodeAll, FirstAttribute, HeaderOk, Parse, Fits, Attributes, Align, LengthAt, AllFit;
      var (data, step) := (Encode(a) + tail, |Encode(a)|);
      RoundTrip(list[1..], base + step);
      ReadStep(data, base);
      assert Attributes(Parse(data[step..], base + step).found) == list[1..];
    }
  }

  // ---------- Arbitrary bytes ----------

  function End(f: Found): nat {
    f.offset + HEADER + |f.attribute.payload|
  }

  /** The attribute stands in the buffer as described. */
  predicate Inside(data: seq<Byte>, base: nat, f: Found) {
    && base <= f.offset && f.offset % 4 == 0 && End(f) <= base + |data|
    && f.attribute.payload == data[f.offset - base + HEADER..End(f) - base]
    && Fits(f.attribute)
  }

  predicate Separate(found: seq<Found>) {
    forall i, j :: 0 <= i < j < |found| ==> End(found[i]) <= found[j].offset
  }

  lemma {:induction false} ParsedStaysInside(data: seq<Byte>, base: nat)
    requires base % 4 == 0
    ensures forall i :: 0 <= i < |Parse(data, base).found| ==> Inside(data, base, Parse(data, base).found[i])
    ensures Separate(Parse(data, base).found)
    decreases |data|
  {
    if data != [] && HeaderOk(data) {
      FirstInside(data, base);
      var step := Align(LengthAt(data));
      if step <= |data| {
        ParsedStaysInside(data[step..], base + step);
        var rest := Parse(data[step..], base + step).found;
        forall i | 0 <= i < |rest|
          ensures Inside(data, base, rest[i]) && End(Found(base, FirstAttribute(data))) <= rest[i].offset
        {
          InsideTail(data, base, step, rest[i]);
        }
      }
    }
  }

  lemma FirstInside(data: seq<Byte>, base: nat)
    requires base % 4 == 0 && HeaderOk(data)
    ensures Inside(data, base, Found(base, FirstAttribute(data)))
    ensures End(Found(base, FirstAttribute(data))) == base + LengthAt(data) <= base + Align(LengthAt(data))
  {
  }

  lemma InsideTail(data: seq<Byte>, base: nat, step: nat, f: Found)
    requires step <= |data| && Inside(data[step..], base + step, f)
    ensures Inside(data, base, f)
  {
    assert data[step..][f.offset - (base + step) + HEADER..End(f) - (base + step)] == data[f.offset - base + HEADER..End(f) - base];
  }

  /** Whatever the bytes are, everything reported lies inside the buffer, aligned and without overlap. */
  lemma ReaderIsSafe(data: seq<Byte>)
    ensures var found := Parse(data, 0).found;
            Separate(found) && forall i :: 0 <= i < |found| ==> Inside(data, 0, found[i])
  {
    ParsedStaysInside(data, 0);
  }

  // ---------- Writing back what was read ----------

  /** Nothing but zeros between the attributes. */
  predicate ZeroPadded(data: seq<Byte>)
    decreases |data|
  {
    data == [] ||
    (HeaderOk(data) && Align(LengthAt(data)) <= |data|
     && (forall i :: LengthAt(data) <= i < Align(LengthAt(data)) ==> data[i] == 0)
     && ZeroPadded(data[Align(LengthAt(data))..]))
  }

  lemma {:induction false} ParsedFit(data: seq<Byte>, base: nat)
    ensures AllFit(Attributes(Parse(data, base).found))
    decreases |data|
  {
    if data != [] && HeaderOk(data) {
      var (a, step) := (FirstAttribute(data), Align(LengthAt(data)));
      assert Fits(a);
      if step <= |data| {
        ParsedFit(data[step..], base + step);
        var rest := Parse(data[step..], base + step).found;
        assert Attributes([Found(base, a)] + rest) == [a] + Attributes(rest);
      } else {
        assert Attributes([Found(base, a)]) == [a];
      }
    }
  }

  lemma ReencodedFirst(data: seq<Byte>)
    requires HeaderOk(data) && Align(LengthAt(data)) <= |data|
    ensures Fits(FirstAttribute(data)) && |Encode(FirstAttribute(data))| == Align(LengthAt(data))
    ensures Encode(FirstAttribute(data)) == data[..Align(LengthAt(data))] <==>
            forall i :: LengthAt(data) <= i < Align(LengthAt(data)) ==> data[i] == 0
  {
    var (a, n, m) := (FirstAttribute(data), LengthAt(data), Align(LengthAt(data)));
    assert Head(n, a.typ) == data[..HEADER];
    var e := Encode(a);
    assert forall i :: 0 <= i < n ==> e[i] == data[i];
    assert forall i :: n <= i < m ==> e[i] == 0;
    if e == data[..m] { assert forall i :: n <= i < m ==> data[i] == data[..m][i]; }
  }

  /** Writing what was read gives back the bytes. */
  predicate Restores(data: seq<Byte>, base: nat) {
    var p := Parse(data, base);
    p.valid && AllFit(Attributes(p.found)) && EncodeAll(Attributes(p.found)) == data
  }

  lemma RestoresStep(data: seq<Byte>, base: nat)
    requires HeaderOk(data) && Align(LengthAt(data)) <= |data|
    ensures var step := Align(LengthAt(data));
            && Fits(FirstAttribute(data))
            && (Restores(data, base) <==> Encode(FirstAttribute(data)) == data[..step] && Restores(data[step..], base + step))
  {
    assert |data| >= HEADER;
    hide Encode, FirstAttribute, HeaderOk, LengthAt, Fits, Parse, AllFit, EncodeAll, Attributes, Align;
    var (a, step) := (FirstAttribute(data), Align(LengthAt(data)));
    var list := Attributes(Parse(data[step..], base + step).found);
    ReadStep(data, base);
    ParsedFit(data[step..], base + step);
    ReencodedFirst(data);
    EncodeCons(a, list);
    assert Restores(data, base) <==> Parse(data, base).valid && Encode(a) + EncodeAll(list) == data;
    assert Restores(data[step..], base + step) <==> Parse(data, base).valid && EncodeAll(list) == data[step..];
    hide Restores;
    Halves(Encode(a), EncodeAll(list), data, step);
  }

  /** Writing back what was read restores the bytes exactly when they were well formed and padded with zeros. */
  lemma {:induction false} WritingBackIff(data: seq<Byte>, base: nat)
    ensures Restores(data, base) <==> ZeroPadded(data)
    decreases |data|
  {
    if data == [] {
      ParseNothing(base);
    } else {
      ParseStep(data, base);
      if HeaderOk(data) && Align(LengthAt(data)) <= |data| {
        RestoresStep(data, base);
        ReencodedFirst(data);
        hide Restores, Encode, FirstAttribute;
        WritingBackIff(data[Align(LengthAt(data))..], base + Align(LengthAt(data)));
      }
    }
  }

  lemma EncodeCons(a: Attribute, list: seq<Attribute>)
    requires Fits(a) && AllFit(list)
    ensures AllFit([a] + list) && EncodeAll([a] + list) == Encode(a) + EncodeAll(list)
  {
    hide Encode, Fits;
    assert ([a] + list)[1..] == list;
  }

  lemma Halves(x: seq<Byte>, y: seq<Byte>, data: seq<Byte>, step: nat)
    requires step <= |data| && |x| == step
    ensures x + y == data <==> x == data[..step] && y == data[step..]
  {
    if x + y == data {
      assert (x + y)[..step] == x && (x + y)[step..] == y;
    }
    assert data == data[..step] + data[step..];
  }

  // ---------- Scalars ----------

  const TYPE_MASK := 16384

  function FindAttribute(found: seq<Found>, typ: nat): Option<Attribute> {
    if found == [] then None
    else if found[0].attribute.typ % TYPE_MASK == typ then Some(found[0].attribute)
    else FindAttribute(found[1..], typ)
  }

  /** Little-endian, `width` bytes. */
  function ScalarBytes(value: nat, width: nat): (b: seq<Byte>)
    ensures |b| == width
  {
    if width == 0 then [] else [Low(value)] + ScalarBytes(value / 256, width - 1)
  }

  function ScalarValue(bytes: seq<Byte>): nat {
    if bytes == [] then 0 else bytes[0] + 256 * ScalarValue(bytes[1..])
  }

  function Power256(n: nat): nat {
    if n == 0 then 1 else 256 * Power256(n - 1)
  }

  lemma {:induction false} ScalarRoundTrip(value: nat, width: nat)
    requires value < Power256(width)
    ensures ScalarValue(ScalarBytes(value, width)) == value
  {
    if width > 0 {
      ScalarRoundTrip(value / 256, width - 1);
      assert ScalarBytes(value, width)[1..] == ScalarBytes(value / 256, width - 1);
    }
  }

  /** The first attribute of a type in the list written is the one found in the bytes read. */
  lemma {:induction false} FindsTheFirst(list: seq<Attribute>, base: nat, i: nat)
    requires AllFit(list) && i < |list|
    requires forall j :: 0 <= j < i ==> list[j].typ % TYPE_MASK != list[i].typ % TYPE_MASK
    ensures FindAttribute(Parse(EncodeAll(list), base).found, list[i].typ % TYPE_MASK) == Some(list[i])
  {
    RoundTrip(list, base);
    var found := Parse(EncodeAll(list), base).found;
    hide Parse, EncodeAll;
    FindIn(found, list, i);
  }

  lemma {:induction false} FindIn(found: seq<Found>, list: seq<Attribute>, i: nat)
    requires Attributes(found) == list && i < |list|
    requires forall j :: 0 <= j < i ==> list[j].typ % TYPE_MASK != list[i].typ % TYPE_MASK
    ensures FindAttribute(found, list[i].typ % TYPE_MASK) == Some(list[i])
  {
    assert found[0].attribute == list[0];
    if i > 0 {
      assert Attributes(found[1..]) == list[1..];
      FindIn(found[1..], list[1..], i - 1);
    }
  }
}
