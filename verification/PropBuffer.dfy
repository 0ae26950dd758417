/** The property buffer of kbase_gpuprops_populate_user_buffer, and the reader that the
    description of the get-properties call in mali_kbase_ioctl.h calls for. */
module PropBuffer {
  type Byte = b: nat | b < 256

  const TWO30: nat := 0x4000_0000
  const TWO32: nat := 0x1_0000_0000

  const EINVAL: int := 22
  const ENOMEM: int := 12

  datatype Option<T> = None | Some(value: T)

  /** A row of the property table with the value of its field. */
  datatype Prop = Prop(typ: nat, size: nat, value: nat)

  /** The table as the driver declares it: keys are 32 bits wide, and a field of 1, 2, 4 or
      8 bytes holds a value that fits it. A row may also have another size. */
  ghost predicate Row(p: Prop) {
    p.typ < TWO32 && (SizeOk(p.size) ==> p.value < Pow256(p.size))
  }

  function Pow256(n: nat): nat {
    if n == 0 then 1 else 256 * Pow256(n - 1)
  }

  predicate SizeOk(size: nat) {
    size == 1 || size == 2 || size == 4 || size == 8
  }

  function SizeCode(size: nat): nat
    requires SizeOk(size)
  {
    if size == 1 then 0 else if size == 2 then 1 else if size == 4 then 2 else 3
  }

  // ---------------------------------------------------------- little endian

  function LE(v: nat, n: nat): (r: seq<Byte>)
    ensures |r| == n
  {
    if n == 0 then [] else [v % 256] + LE(v / 256, n - 1)
  }

  function FromLE(bs: seq<Byte>): nat {
    if bs == [] then 0 else bs[0] + 256 * FromLE(bs[1..])
  }

  lemma {:induction false} FromLEInverse(v: nat, n: nat)
    requires v < Pow256(n)
    ensures FromLE(LE(v, n)) == v
  {
    if n > 0 {
      FromLEInverse(v / 256, n - 1);
      assert LE(v, n)[1..] == LE(v / 256, n - 1);
    }
  }

  lemma LETwo(v: nat, n: nat)
    ensures LE(v, 2) == [v % 256] + [v / 256 % 256]
    ensures LE(v, n + 2) == LE(v, 2) + LE(v / 65536, n)
  {
    assert LE(v, 2) == [v % 256, v / 256 % 256];
    assert LE(v, n + 2) == [v % 256] + ([v / 256 % 256] + LE(v / 256 / 256, n));
    assert v / 256 / 256 == v / 65536;
  }

  lemma FourBytes(v: nat)
    ensures v / 65536 / 65536 == v / TWO32
  {
  }

  /** Writing a number in two halves is writing the number. */
  lemma Halves(v: nat)
    ensures LE(v, 2) == [v % 256] + [v / 256 % 256]
    ensures LE(v, 4) == LE(v, 2) + LE(v / 65536, 2)
    ensures LE(v, 8) == LE(v, 4) + LE(v / TWO32, 4)
  {
    hide LE;
    LETwo(v, 2);
    LETwo(v, 6);
    LETwo(v / 65536, 4);
    FourBytes(v);
    assert LE(v, 2) + (LE(v / 65536, 2) + LE(v / TWO32, 4)) == (LE(v, 2) + LE(v / 65536, 2)) + LE(v / TWO32, 4);
  }

  // ------------------------------------------------------------- the format

  /** The 32-bit key: the type, shifted by two, with the code of the size below. */
  function Key(p: Prop): nat
    requires SizeOk(p.size)
  {
    (p.typ * 4 + SizeCode(p.size)) % TWO32
  }

  function EncodeRow(p: Prop): seq<Byte>
    requires SizeOk(p.size)
  {
    LE(Key(p), 4) + LE(p.value, p.size)
  }

  ghost predicate AllSizesOk(ps: seq<Prop>) {
    forall p :: p in ps ==> SizeOk(p.size)
  }

  function Encode(ps: seq<Prop>): seq<Byte>
    requires AllSizesOk(ps)
  {
    if ps == [] then [] else EncodeRow(ps[0]) + Encode(ps[1..])
  }

  /** The size that is computed for a table before it is written. */
  function TotalSize(ps: seq<Prop>): nat {
    if ps == [] then 0 else 4 + ps[0].size + TotalSize(ps[1..])
  }

  function SizeOf(code: nat): nat
    requires code < 4
  {
    if code == 0 then 1 else if code == 1 then 2 else if code == 2 then 4 else 8
  }

  /** The documented reader: a key, whose bottom bits tell the size of the value after it. */
  function Decode(bs: seq<Byte>): Option<seq<Prop>> {
    if bs == [] then Some([])
    else if |bs| < 4 then None
    else
      var key, size := FromLE(bs[..4]), SizeOf(FromLE(bs[..4]) % 4);
      if |bs| < 4 + size then None
      else
        match Decode(bs[4 + size..])
        case None => None
        case Some(rest) => Some([Prop(key / 4, size, FromLE(bs[4..4 + size]))] + rest)
  }

  /** What is left of a row when its type does not fit the key. */
  function Cut(p: Prop): Prop {
    p.(typ := p.typ % TWO30)
  }

  function CutAll(ps: seq<Prop>): (r: seq<Prop>)
    ensures |r| == |ps| && forall i :: 0 <= i < |ps| ==> r[i] == Cut(ps[i])
  {
    seq(|ps|, i requires 0 <= i < |ps| => Cut(ps[i]))
  }

  lemma KeyParts(p: Prop)
    requires SizeOk(p.size)
    ensures Key(p) < TWO32 && Key(p) % 4 == SizeCode(p.size) && Key(p) / 4 == p.typ % TWO30
  {
  }

  lemma Pow4()
    ensures Pow256(4) == TWO32
  {
    assert Pow256(1) == 256 && Pow256(2) == 65536 && Pow256(3) == 16777216;
  }

  lemma DecodeRow(p: Prop, rest: seq<Byte>)
    requires SizeOk(p.size) && Row(p)
    ensures Decode(EncodeRow(p) + rest) ==
      match Decode(rest) case None => None case Some(r) => Some([Cut(p)] + r)
  {
    var bs := EncodeRow(p) + rest;
    RowParts(p, rest);
    KeyParts(p);
    Pow4();
    FromLEInverse(Key(p), 4);
    FromLEInverse(p.value, p.size);
    hide LE, FromLE, Key;
    assert SizeOf(SizeCode(p.size)) == p.size;
    assert bs != [];
  }

  lemma RowParts(p: Prop, rest: seq<Byte>)
    requires SizeOk(p.size)
    ensures var bs := EncodeRow(p) + rest;
      |bs| >= 4 + p.size && bs[..4] == LE(Key(p), 4) && bs[4..4 + p.size] == LE(p.value, p.size) && bs[4 + p.size..] == rest
  {
    hide LE, Key;
  }

  /** Reading back what was written gives the rows, with their types cut to 30 bits. */
  lemma {:induction false} DecodeEncode(ps: seq<Prop>)
    requires AllSizesOk(ps) && forall p :: p in ps ==> Row(p)
    ensures Decode(Encode(ps)) == Some(CutAll(ps))
  {
    hide Row, Cut, EncodeRow;
    if ps == [] {
      assert CutAll(ps) == [];
    } else {
      assert ps[0] in ps;
      DecodeRow(ps[0], Encode(ps[1..]));
      DecodeEncode(ps[1..]);
      assert CutAll(ps) == [Cut(ps[0])] + CutAll(ps[1..]);
    }
  }

  /** The table is read back exactly if and only if all its types fit 30 bits. */
  lemma RoundTrip(ps: seq<Prop>)
    requires AllSizesOk(ps) && forall p :: p in ps ==> Row(p)
    ensures Decode(Encode(ps)) == Some(ps) <==> forall p :: p in ps ==> p.typ < TWO30
  {
    hide Decode, Encode, Row;
    DecodeEncode(ps);
    assert CutAll(ps) == ps <==> forall i :: 0 <= i < |ps| ==> Cut(ps[i]) == ps[i];
    assert forall p: Prop :: Cut(p) == p <==> p.typ < TWO30;
  }

  lemma {:induction false} ByteOf(v: nat, n: nat, i: nat)
    requires i < n
    ensures Pow256(i) > 0 && LE(v, n)[i] == v / Pow256(i) % 256
  {
    if i > 0 {
      ByteOf(v / 256, n - 1, i - 1);
      assert v / 256 / Pow256(i - 1) == v / Pow256(i) by { DivTwice(v, Pow256(i - 1)); }
    }
  }

  lemma DivTwice(v: nat, m: nat)
    requires m > 0
    ensures v / 256 / m == v / (256 * m)
  {
    var b := v / 256;
    var x, y := b / m, b % m;
    assert b == m * x + y;
    assert v == (256 * m) * x + (256 * y + v % 256) by {
      assert (256 * m) * x == 256 * (m * x);
    }
    DivUnique(256 * m, x, 256 * y + v % 256);
  }

  lemma DivUnique(d: nat, x: nat, r: nat)
    requires r < d
    ensures (d * x + r) / d == x
  {
    var v := d * x + r;
    var q, e := v / d, v % d;
    assert v == d * q + e;
    if q > x {
      Larger(d, x, q);
    } else if q < x {
      Larger(d, q, x);
    }
  }

  lemma {:induction false} Larger(d: nat, a: int, b: int)
    requires a < b
    ensures d * b >= d * a + d
    decreases b - a
  {
    assert d * b == d * (b - 1) + d;
    if a < b - 1 {
      Larger(d, a, b - 1);
    }
  }

  /** Byte for byte: the key, whose two bottom bits say whether 1, 2, 4 or 8 bytes follow, and the
      value, both with the least significant byte first. */
  lemma RowBytes(p: Prop, i: nat)
    requires SizeOk(p.size) && i < 4 + p.size
    ensures |EncodeRow(p)| == 4 + p.size && Pow256(if i < 4 then i else i - 4) > 0
    ensures var code := if p.size == 1 then 0 else if p.size == 2 then 1 else if p.size == 4 then 2 else 3;
      EncodeRow(p)[i] ==
        if i < 4 then (p.typ * 4 + code) % 0x1_0000_0000 / Pow256(i) % 256 else p.value / Pow256(i - 4) % 256
  {
    hide LE, Pow256;
    if i < 4 {
      ByteOf(Key(p), 4, i);
    } else {
      ByteOf(p.value, p.size, i - 4);
    }
  }

  // ------------------------------------------------------------ the writer

  class Writer {
    /** the property buffer and the position of the next byte */
    var buffer: array<Byte>
    var p: nat

    constructor (size: nat)
      ensures fresh(buffer) && buffer.Length == size && p == 0
    {
      buffer, p := new Byte[size](i => 0), 0;
    }

    ghost function Written(): seq<Byte>
      reads this, buffer
      requires p <= buffer.Length
    {
      buffer[..p]
    }

    method WriteU8(v: nat)
      requires p < buffer.Length
      modifies this`p, buffer
      ensures p == old(p) + 1 && Written() == old(Written()) + [v % 256]
    {
      buffer[p] := v % 256;
      p := p + 1;
    }

    method WriteU16(v: nat)
      requires p + 2 <= buffer.Length
      modifies this`p, buffer
      ensures p == old(p) + 2 && Written() == old(Written()) + LE(v, 2)
    {
      Halves(v);
      WriteU8(v);
      WriteU8(v / 256);
    }

    method WriteU32(v: nat)
      requires p + 4 <= buffer.Length
      modifies this`p, buffer
      ensures p == old(p) + 4 && Written() == old(Written()) + LE(v, 4)
    {
      hide LE;
      Halves(v);
      WriteU16(v);
      WriteU16(v / 65536);
    }

    method WriteU64(v: nat)
      requires p + 8 <= buffer.Length
      modifies this`p, buffer
      ensures p == old(p) + 8 && Written() == old(Written()) + LE(v, 8)
    {
      hide LE;
      Halves(v);
      WriteU32(v);
      WriteU32(v / TWO32);
    }

    /** One row: its key, and its value in as many bytes as the field has. */
    method WriteRow(row: Prop)
      requires SizeOk(row.size) && p + 4 + row.size <= buffer.Length
      modifies this`p, buffer
      ensures p == old(p) + 4 + row.size && Written() == old(Written()) + EncodeRow(row)
    {
      hide LE;
      WriteU32(Key(row));
      match SizeCode(row.size)
      case 0 => LEOne(row.value); WriteU8(row.value);
      case 1 => WriteU16(row.value);
      case 2 => WriteU32(row.value);
      case _ => WriteU64(row.value);
      assert Written() == old(Written()) + (LE(Key(row), 4) + LE(row.value, row.size));
    }
  }

  lemma LEOne(v: nat)
    ensures LE(v, 1) == [v % 256]
  {
  }

  /** kbase_gpuprops_populate_user_buffer. `memory` tells whether the buffer can be allocated.
      Unless a row has an odd size, the buffer is filled to the last byte. */
  method PopulateUserBuffer(table: seq<Prop>, memory: bool) returns (err: int, size: nat, bytes: seq<Byte>)
    ensures !memory ==> err == -12 && size == 0
    ensures memory ==> size == TotalSize(table) && (err != 0 ==> err == -22)
    ensures memory ==>
      (err == 0 <==> forall row :: row in table ==> row.size == 1 || row.size == 2 || row.size == 4 || row.size == 8)
    ensures memory && err == 0 ==> AllSizesOk(table) && bytes == Encode(table) && |bytes| == size
  {
    size := 0;
    for i := 0 to |table|
      invariant size + TotalSize(table[i..]) == TotalSize(table)
    {
      assert table[i..][1..] == table[i + 1..];
      size := size + 4 + table[i].size;
    }
    if !memory {
      return -ENOMEM, 0, [];
    }
    var w := new Writer(size);
    for i := 0 to |table|
      invariant w.buffer.Length == size && fresh(w) && fresh(w.buffer)
      invariant w.p + TotalSize(table[i..]) == size
      invariant forall k :: 0 <= k < i ==> SizeOk(table[k].size)
      invariant AllSizesOk(table[..i]) && w.Written() == Encode(table[..i])
    {
      assert table[i..][1..] == table[i + 1..];
      assert table[..i + 1] == table[..i] + [table[i]];
      if !SizeOk(table[i].size) {
        return -EINVAL, size, [];
      }
      w.WriteRow(table[i]);
      EncodeSnoc(table[..i], table[i]);
    }
    assert table[..|table|] == table;
    return 0, size, w.buffer[..];
  }

  lemma {:induction false} EncodeSnoc(ps: seq<Prop>, p: Prop)
    requires AllSizesOk(ps) && SizeOk(p.size)
    ensures AllSizesOk(ps + [p]) && Encode(ps + [p]) == Encode(ps) + EncodeRow(p)
  {
    hide EncodeRow;
    if ps == [] {
      assert [p][1..] == [];
      assert EncodeRow(p) + [] == EncodeRow(p);
    } else {
      EncodeSnoc(ps[1..], p);
      assert (ps + [p])[1..] == ps[1..] + [p];
    }
  }
}
