/** Bounded little-endian serialisation. A record layout is a row of field types; writing
    and reading a row are defined once for all layouts, and reading undoes writing. */
module Wire {
  import opened Enums

  type byte = bv8

  const MAX_COUNT: nat := 0x10_0000
  const MAX_STRING: nat := 0x10_0000

  // ---- Fixed-width little-endian integers ----

  function PutLE(n: nat, width: nat): (bs: seq<byte>)
    ensures |bs| == width
    decreases width
  {
    if width == 0 then [] else [(n % 256) as byte] + PutLE(n / 256, width - 1)
  }

  function GetLE(bs: seq<byte>): nat {
    if bs == [] then 0 else bs[0] as int + 256 * GetLE(bs[1..])
  }

  function Pow256(width: nat): nat {
    if width == 0 then 1 else 256 * Pow256(width - 1)
  }

  lemma ByteSuccessor(b: byte)
    requires b != 255
    ensures (b + 1) as int == b as int + 1
  {
  }

  lemma LastByte(b: byte)
    ensures b == 255 ==> b as int == 255
  {
  }

  /** Counting up reaches every value below 256. */
  lemma {:induction false} ByteFor(n: nat) returns (b: byte)
    requires n < 256
    ensures b as int == n
  {
    if n == 0 {
      b := 0;
    } else {
      var c := ByteFor(n - 1);
      LastByte(c);
      ByteSuccessor(c);
      b := c + 1;
    }
  }

  lemma ByteOfByte(b: byte)
    ensures (b as int) as byte == b
  {
  }

  lemma ByteOfInt(n: nat)
    requires n < 256
    ensures (n as byte) as int == n
  {
    var b := ByteFor(n);
    ByteOfByte(b);
  }

  lemma {:induction false} LittleEndianRoundTrip(n: nat, width: nat)
    requires n < Pow256(width)
    ensures GetLE(PutLE(n, width)) == n
    decreases width
  {
    if width > 0 {
      LittleEndianRoundTrip(n / 256, width - 1);
      ByteOfInt(n % 256);
      assert PutLE(n, width)[1..] == PutLE(n / 256, width - 1);
    }
  }

  lemma {:induction false} LittleEndianBound(bs: seq<byte>)
    ensures GetLE(bs) < Pow256(|bs|)
  {
    if bs != [] {
      LittleEndianBound(bs[1..]);
    }
  }

  /** Unsigned representation of a signed 64-bit value. */
  function Unsigned64(i: int): nat
    requires -0x8000_0000_0000_0000 <= i < 0x8000_0000_0000_0000
  {
    if i < 0 then i + 0x1_0000_0000_0000_0000 else i
  }

  function Signed64(n: nat): int {
    if n < 0x8000_0000_0000_0000 then n else n - 0x1_0000_0000_0000_0000
  }

  // ---- Strings ----

  function Chars(bs: seq<byte>): (s: string)
    ensures |s| == |bs|
    ensures forall i :: 0 <= i < |s| ==> s[i] as int < 256
  {
    seq(|bs|, i requires 0 <= i < |bs| => (bs[i] as int) as char)
  }

  predicate IsBytes(s: string) {
    forall i :: 0 <= i < |s| ==> s[i] as int < 256
  }

  function Bytes(s: string): (bs: seq<byte>)
    requires IsBytes(s)
    ensures |bs| == |s|
  {
    seq(|s|, i requires 0 <= i < |s| => (s[i] as int) as byte)
  }

  lemma CharsOfBytes(s: string)
    requires IsBytes(s)
    ensures Chars(Bytes(s)) == s
  {
    forall i | 0 <= i < |s| ensures Chars(Bytes(s))[i] == s[i] {
      ByteOfInt(s[i] as int);
    }
  }

  // ---- Layouts ----

  datatype Ty =
    | TCode(limit: nat)        // an enumeration: one byte, below the limit
    | TFlag                    // one byte, zero or not
    | TU32
    | TU64
    | TI64
    | TText                    // length-prefixed string
    | TList(item: seq<Ty>)     // count-prefixed rows
    | TOpt(item: seq<Ty>)      // presence byte, then perhaps a row
    | TRow(item: seq<Ty>)      // a nested row, in place

  datatype Val =
    | VNum(n: int)
    | VFlag(b: bool)
    | VText(t: string)
    | VList(rows: seq<seq<Val>>)
    | VOpt(opt: Option<seq<Val>>)
    | VRow(row: seq<Val>)

  type Row = seq<Val>

  ghost predicate Fits(ty: Ty, v: Val)
    decreases ty
  {
    match ty
    case TCode(limit) => v.VNum? && 0 <= v.n < limit && v.n < 256
    case TFlag => v.VFlag?
    case TU32 => v.VNum? && 0 <= v.n < 0x1_0000_0000
    case TU64 => v.VNum? && 0 <= v.n < 0x1_0000_0000_0000_0000
    case TI64 => v.VNum? && -0x8000_0000_0000_0000 <= v.n < 0x8000_0000_0000_0000
    case TText => v.VText? && |v.t| <= MAX_STRING && IsBytes(v.t)
    case TList(item) =>
      v.VList? && |v.rows| <= MAX_COUNT && forall j :: 0 <= j < |v.rows| ==> FitsRow(item, v.rows[j])
    case TOpt(item) => v.VOpt? && (v.opt.Some? ==> FitsRow(item, v.opt.value))
    case TRow(item) => v.VRow? && FitsRow(item, v.row)
  }

  ghost predicate FitsRow(tys: seq<Ty>, vs: Row)
    decreases tys
  {
    |vs| == |tys| && forall i :: 0 <= i < |tys| ==> Fits(tys[i], vs[i])
  }

  function Put(ty: Ty, v: Val): seq<byte>
    requires Fits(ty, v)
    decreases ty, 0
  {
    match ty
    case TCode(_) => PutLE(v.n, 1)
    case TFlag => PutLE(if v.b then 1 else 0, 1)
    case TU32 => PutLE(v.n, 4)
    case TU64 => PutLE(v.n, 8)
    case TI64 => PutLE(Unsigned64(v.n), 8)
    case TText => PutLE(|v.t|, 4) + Bytes(v.t)
    case TList(item) => PutLE(|v.rows|, 4) + PutRows(item, v.rows)
    case TOpt(item) => if v.opt.Some? then PutLE(1, 1) + PutRow(item, v.opt.value) else PutLE(0, 1)
    case TRow(item) => PutRow(item, v.row)
  }

  function PutRow(tys: seq<Ty>, vs: Row): seq<byte>
    requires FitsRow(tys, vs)
    decreases tys, 0
  {
    if tys == [] then [] else Put(tys[0], vs[0]) + PutRow(tys[1..], vs[1..])
  }

  function PutRows(tys: seq<Ty>, rows: seq<Row>): seq<byte>
    requires forall j :: 0 <= j < |rows| ==> FitsRow(tys, rows[j])
    decreases tys, 1 + |rows|
  {
    if rows == [] then [] else PutRow(tys, rows[0]) + PutRows(tys, rows[1..])
  }

  /** What a read yields: the value and the bytes left over, or nothing. */
  type Parsed<T> = Option<(T, seq<byte>)>

  function GetInt(bs: seq<byte>, width: nat): Parsed<nat> {
    if |bs| < width then None else Some((GetLE(bs[..width]), bs[width..]))
  }

  lemma GetIntBound(bs: seq<byte>, width: nat)
    ensures GetInt(bs, width).Some? ==> GetInt(bs, width).value.0 < Pow256(width)
  {
    if |bs| >= width {
      LittleEndianBound(bs[..width]);
    }
  }

  function Get(ty: Ty, bs: seq<byte>): (p: Parsed<Val>)
    ensures p.Some? ==> Fits(ty, p.value.0)
    decreases ty, 0
  {
    GetIntBound(bs, 1);
    GetIntBound(bs, 4);
    GetIntBound(bs, 8);
    match ty
    case TCode(limit) => (
      var c := GetInt(bs, 1);
      if c.None? || c.value.0 >= limit then None else Some((VNum(c.value.0), c.value.1)))
    case TFlag => (
      var c := GetInt(bs, 1);
      if c.None? then None else Some((VFlag(c.value.0 != 0), c.value.1)))
    case TU32 => (
      var c := GetInt(bs, 4);
      if c.None? then None else Some((VNum(c.value.0), c.value.1)))
    case TU64 => (
      var c := GetInt(bs, 8);
      if c.None? then None else Some((VNum(c.value.0), c.value.1)))
    case TI64 => (
      var c := GetInt(bs, 8);
      if c.None? then None else Some((VNum(Signed64(c.value.0)), c.value.1)))
    case TText => (
      var c := GetInt(bs, 4);
      if c.None? || c.value.0 > MAX_STRING || c.value.0 > |c.value.1| then None
      else Some((VText(Chars(c.value.1[..c.value.0])), c.value.1[c.value.0..])))
    case TList(item) => (
      var c := GetInt(bs, 4);
      if c.None? || c.value.0 > MAX_COUNT then None
      else
        var rs := GetRows(item, c.value.0, c.value.1);
        if rs.None? then None else Some((VList(rs.value.0), rs.value.1)))
    case TOpt(item) => (
      var c := GetInt(bs, 1);
      if c.None? then None
      else if c.value.0 == 0 then Some((VOpt(None), c.value.1))
      else
        var r := GetRow(item, c.value.1);
        if r.None? then None else Some((VOpt(Some(r.value.0)), r.value.1)))
    case TRow(item) => (
      var r := GetRow(item, bs);
      if r.None? then None else Some((VRow(r.value.0), r.value.1)))
  }

  function GetRow(tys: seq<Ty>, bs: seq<byte>): (p: Parsed<Row>)
    ensures p.Some? ==> FitsRow(tys, p.value.0)
    decreases tys, 0
  {
    if tys == [] then Some(([], bs))
    else
      var v := Get(tys[0], bs);
      if v.None? then None
      else
        var vs := GetRow(tys[1..], v.value.1);
        if vs.None? then None else Some(([v.value.0] + vs.value.0, vs.value.1))
  }

  function GetRows(tys: seq<Ty>, count: nat, bs: seq<byte>): (p: Parsed<seq<Row>>)
    ensures p.Some? ==> |p.value.0| == count && forall j :: 0 <= j < count ==> FitsRow(tys, p.value.0[j])
    decreases tys, 1 + count
  {
    if count == 0 then Some(([], bs))
    else
      var r := GetRow(tys, bs);
      if r.None? then None
      else
        var rs := GetRows(tys, count - 1, r.value.1);
        if rs.None? then None else Some(([r.value.0] + rs.value.0, rs.value.1))
  }

  // ---- Fields of a row that fits its layout ----

  function CodeAt(tys: seq<Ty>, r: Row, i: nat): (n: nat)
    requires FitsRow(tys, r) && i < |tys| && tys[i].TCode?
    ensures r[i] == VNum(n) && n < tys[i].limit
  {
    assert Fits(tys[i], r[i]);
    r[i].n
  }

  function FlagAt(tys: seq<Ty>, r: Row, i: nat): (b: bool)
    requires FitsRow(tys, r) && i < |tys| && tys[i].TFlag?
    ensures r[i] == VFlag(b)
  {
    assert Fits(tys[i], r[i]);
    r[i].b
  }

  function U32At(tys: seq<Ty>, r: Row, i: nat): (n: nat)
    requires FitsRow(tys, r) && i < |tys| && tys[i].TU32?
    ensures r[i] == VNum(n) && n < 0x1_0000_0000
  {
    assert Fits(tys[i], r[i]);
    r[i].n
  }

  function U64At(tys: seq<Ty>, r: Row, i: nat): (n: nat)
    requires FitsRow(tys, r) && i < |tys| && tys[i].TU64?
    ensures r[i] == VNum(n) && n < 0x1_0000_0000_0000_0000
  {
    assert Fits(tys[i], r[i]);
    r[i].n
  }

  function I64At(tys: seq<Ty>, r: Row, i: nat): (n: int)
    requires FitsRow(tys, r) && i < |tys| && tys[i].TI64?
    ensures r[i] == VNum(n) && -0x8000_0000_0000_0000 <= n < 0x8000_0000_0000_0000
  {
    assert Fits(tys[i], r[i]);
    r[i].n
  }

  function TextAt(tys: seq<Ty>, r: Row, i: nat): (t: string)
    requires FitsRow(tys, r) && i < |tys| && tys[i].TText?
    ensures r[i] == VText(t)
  {
    assert Fits(tys[i], r[i]);
    r[i].t
  }

  function RowsAt(tys: seq<Ty>, r: Row, i: nat): (rows: seq<Row>)
    requires FitsRow(tys, r) && i < |tys| && tys[i].TList?
    ensures r[i] == VList(rows)
    ensures forall j :: 0 <= j < |rows| ==> FitsRow(tys[i].item, rows[j])
  {
    assert Fits(tys[i], r[i]);
    r[i].rows
  }

  function OptAt(tys: seq<Ty>, r: Row, i: nat): (opt: Option<Row>)
    requires FitsRow(tys, r) && i < |tys| && tys[i].TOpt?
    ensures r[i] == VOpt(opt) && (opt.Some? ==> FitsRow(tys[i].item, opt.value))
  {
    assert Fits(tys[i], r[i]);
    r[i].opt
  }

  function RowAt(tys: seq<Ty>, r: Row, i: nat): (row: Row)
    requires FitsRow(tys, r) && i < |tys| && tys[i].TRow?
    ensures r[i] == VRow(row) && FitsRow(tys[i].item, row)
  {
    assert Fits(tys[i], r[i]);
    r[i].row
  }

  // ---- Reading undoes writing ----

  lemma GetIntOfPut(n: nat, width: nat, rest: seq<byte>)
    requires n < Pow256(width)
    ensures GetInt(PutLE(n, width) + rest, width) == Some((n, rest))
  {
    LittleEndianRoundTrip(n, width);
    assert (PutLE(n, width) + rest)[..width] == PutLE(n, width);
    assert (PutLE(n, width) + rest)[width..] == rest;
  }

  lemma ScalarRoundTrip(ty: Ty, v: Val, rest: seq<byte>)
    requires Fits(ty, v)
    requires !ty.TText? && !ty.TList? && !ty.TOpt? && !ty.TRow?
    ensures Get(ty, Put(ty, v) + rest) == Some((v, rest))
  {
    match ty
    case TCode(_) => GetIntOfPut(v.n, 1, rest);
    case TFlag => GetIntOfPut(if v.b then 1 else 0, 1, rest);
    case TU32 => GetIntOfPut(v.n, 4, rest);
    case TU64 => GetIntOfPut(v.n, 8, rest);
    case TI64 => GetIntOfPut(Unsigned64(v.n), 8, rest);
  }

  lemma TextRoundTrip(t: string, rest: seq<byte>)
    requires Fits(TText, VText(t))
    ensures Get(TText, Put(TText, VText(t)) + rest) == Some((VText(t), rest))
  {
    var body := Bytes(t) + rest;
    GetIntOfPut(|t|, 4, body);
    CharsOfBytes(t);
    assert body[..|t|] == Bytes(t) && body[|t|..] == rest;
    assert Put(TText, VText(t)) + rest == PutLE(|t|, 4) + body;
  }

  lemma {:induction false} RoundTrip(ty: Ty, v: Val, rest: seq<byte>)
    requires Fits(ty, v)
    ensures Get(ty, Put(ty, v) + rest) == Some((v, rest))
    decreases ty, 0
  {
    match ty
    case TText => TextRoundTrip(v.t, rest);
    case TList(item) => ListRoundTrip(item, v.rows, rest);
    case TOpt(item) => OptRoundTrip(item, v.opt, rest);
    case TRow(item) => RowRoundTrip(item, v.row, rest);
    case _ => ScalarRoundTrip(ty, v, rest);
  }

  lemma {:induction false} ListRoundTrip(item: seq<Ty>, rows: seq<Row>, rest: seq<byte>)
    requires Fits(TList(item), VList(rows))
    ensures Get(TList(item), Put(TList(item), VList(rows)) + rest) == Some((VList(rows), rest))
    decreases item, 2 + |rows|
  {
    hide FitsRow, PutRows, GetRows, PutLE, GetInt;
    var body := PutRows(item, rows) + rest;
    GetIntOfPut(|rows|, 4, body);
    RowsRoundTrip(item, rows, rest);
    assert Put(TList(item), VList(rows)) + rest == PutLE(|rows|, 4) + body;
  }

  lemma {:induction false} OptRoundTrip(item: seq<Ty>, row: Option<Row>, rest: seq<byte>)
    requires Fits(TOpt(item), VOpt(row))
    ensures Get(TOpt(item), Put(TOpt(item), VOpt(row)) + rest) == Some((VOpt(row), rest))
    decreases item, 2
  {
    hide FitsRow, PutRow, GetRow, PutLE, GetInt;
    if row.Some? {
      var body := PutRow(item, row.value) + rest;
      GetIntOfPut(1, 1, body);
      RowRoundTrip(item, row.value, rest);
      assert Put(TOpt(item), VOpt(row)) + rest == PutLE(1, 1) + body;
    } else {
      GetIntOfPut(0, 1, rest);
    }
  }

  lemma FitsParts(tys: seq<Ty>, vs: Row)
    requires FitsRow(tys, vs) && tys != []
    ensures vs != [] && Fits(tys[0], vs[0]) && FitsRow(tys[1..], vs[1..])
  {
    hide Fits;
  }

  lemma {:induction false} RowRoundTrip(tys: seq<Ty>, vs: Row, rest: seq<byte>)
    requires FitsRow(tys, vs)
    ensures GetRow(tys, PutRow(tys, vs) + rest) == Some((vs, rest))
    decreases tys, 0
  {
    hide Put, Get, Fits, FitsRow;
    if tys == [] {
      assert vs == [] by { NoFields(vs); }
      assert PutRow(tys, vs) + rest == rest;
    } else {
      FitsParts(tys, vs);
      var tail := PutRow(tys[1..], vs[1..]) + rest;
      RoundTrip(tys[0], vs[0], tail);
      RowRoundTrip(tys[1..], vs[1..], rest);
      assert PutRow(tys, vs) + rest == Put(tys[0], vs[0]) + tail;
      assert [vs[0]] + vs[1..] == vs;
    }
  }

  lemma NoFields(vs: Row)
    requires FitsRow([], vs)
    ensures vs == []
  {
  }

  lemma {:induction false} RowsRoundTrip(tys: seq<Ty>, rows: seq<Row>, rest: seq<byte>)
    requires forall j :: 0 <= j < |rows| ==> FitsRow(tys, rows[j])
    ensures GetRows(tys, |rows|, PutRows(tys, rows) + rest) == Some((rows, rest))
    decreases tys, 1 + |rows|
  {
    hide FitsRow, PutRow, GetRow;
    if rows == [] {
      assert PutRows(tys, rows) + rest == rest;
    } else {
      var tail := PutRows(tys, rows[1..]) + rest;
      RowRoundTrip(tys, rows[0], tail);
      RowsRoundTrip(tys, rows[1..], rest);
      assert PutRows(tys, rows) + rest == PutRow(tys, rows[0]) + tail;
      assert [rows[0]] + rows[1..] == rows;
    }
  }

  /** Rows of one layout form a uniquely decodable code. */
  lemma PutRowInjective(tys: seq<Ty>, vs: Row, ws: Row)
    requires FitsRow(tys, vs) && FitsRow(tys, ws)
    requires PutRow(tys, vs) == PutRow(tys, ws)
    ensures vs == ws
  {
    RowRoundTrip(tys, vs, []);
    RowRoundTrip(tys, ws, []);
  }

  // ---- Hexadecimal text ----

  function HexDigit(n: nat): char
    requires n < 16
  {
    if n < 10 then ('0' as int + n) as char else ('a' as int + n - 10) as char
  }

  function HighNibble(b: byte): (n: nat)
    ensures n < 16
  {
    (b >> 4) as int
  }

  function LowNibble(b: byte): (n: nat)
    ensures n < 16
  {
    (b & 0xF) as int
  }

  function Hex(bs: seq<byte>): (s: string)
    ensures |s| == 2 * |bs|
  {
    if bs == [] then "" else Hex(bs[..|bs| - 1]) + [HexDigit(HighNibble(bs[|bs| - 1])),
        HexDigit(LowNibble(bs[|bs| - 1]))]
  }

  lemma NibblesDetermineByte(b: byte, c: byte)
    requires HighNibble(b) == HighNibble(c) && LowNibble(b) == LowNibble(c)
    ensures b == c
  {
    assert b >> 4 == c >> 4 by {
      assert ((b >> 4) as int) as bv8 == b >> 4;
      assert ((c >> 4) as int) as bv8 == c >> 4;
    }
    assert b & 0xF == c & 0xF by {
      assert ((b & 0xF) as int) as bv8 == b & 0xF;
      assert ((c & 0xF) as int) as bv8 == c & 0xF;
    }
    assert b == ((b >> 4) << 4) | (b & 0xF);
    assert c == ((c >> 4) << 4) | (c & 0xF);
  }

  lemma {:induction false} HexInjective(bs: seq<byte>, cs: seq<byte>)
    requires Hex(bs) == Hex(cs)
    ensures bs == cs
  {
    hide Hex, HexDigit, HighNibble, LowNibble;
    assert |bs| == |cs|;
    if bs != [] {
      var n := |bs| - 1;
      HexLast(bs);
      HexLast(cs);
      HexInjective(bs[..n], cs[..n]);
      HexDigitInjective(HighNibble(bs[n]), HighNibble(cs[n]));
      HexDigitInjective(LowNibble(bs[n]), LowNibble(cs[n]));
      NibblesDetermineByte(bs[n], cs[n]);
      assert bs == bs[..n] + [bs[n]] && cs == cs[..n] + [cs[n]];
    }
  }

  /** The text of a byte string, and of its last byte. */
  lemma HexLast(bs: seq<byte>)
    requires bs != []
    ensures var n := |bs| - 1;
      && Hex(bs)[..2 * n] == Hex(bs[..n])
      && Hex(bs)[2 * n] == HexDigit(HighNibble(bs[n])) && Hex(bs)[2 * n + 1] == HexDigit(LowNibble(bs[n]))
  {
    hide HexDigit, HighNibble, LowNibble;
  }

  lemma HexDigitInjective(m: nat, n: nat)
    requires m < 16 && n < 16
    ensures HexDigit(m) == HexDigit(n) <==> m == n
  {
  }

  lemma NibblesOfByte(b: byte)
    ensures 16 * HighNibble(b) + LowNibble(b) == b as int
  {
  }

  const DIGITS: string := "0123456789abcdef"

  lemma {:induction false} HexPlaces(bs: seq<byte>, i: nat)
    requires i < |bs|
    ensures Hex(bs)[2 * i] == HexDigit(HighNibble(bs[i])) && Hex(bs)[2 * i + 1] == HexDigit(LowNibble(bs[i]))
    decreases |bs|
  {
    hide Hex, HighNibble, LowNibble, HexDigit;
    var n := |bs| - 1;
    HexLast(bs);
    if i < n {
      HexPlaces(bs[..n], i);
      assert bs[..n][i] == bs[i];
      assert Hex(bs)[..2 * n][2 * i] == Hex(bs)[2 * i] && Hex(bs)[..2 * n][2 * i + 1] == Hex(bs)[2 * i + 1];
    }
  }

  /** Each byte is two lower-case digits, the high one first. */
  lemma HexAt(bs: seq<byte>, i: nat)
    requires i < |bs|
    ensures Hex(bs)[2 * i] == DIGITS[bs[i] as int / 16] && Hex(bs)[2 * i + 1] == DIGITS[bs[i] as int % 16]
  {
    hide Hex, HexDigit;
    HexPlaces(bs, i);
    NibblesOfByte(bs[i]);
    DigitsAre(HighNibble(bs[i]));
    DigitsAre(LowNibble(bs[i]));
  }

  lemma DigitsAre(n: nat)
    requires n < 16
    ensures HexDigit(n) == DIGITS[n]
  {
  }

  method ToHex(bs: seq<byte>) returns (s: string)
    ensures s == Hex(bs)
  {
    s := "";
    for i := 0 to |bs|
      invariant s == Hex(bs[..i])
    {
      assert bs[..i + 1][..i] == bs[..i];
      s := s + [HexDigit(HighNibble(bs[i])), HexDigit(LowNibble(bs[i]))];
    }
    assert bs[..|bs|] == bs;
  }
}
