/** The bounded writer and reader: a buffer that grows, and a cursor with a failure that
    sticks. What they write and read is what the layouts say. */
module WireIO {
  import opened Enums
  import opened Wire

  /** Low byte first, one byte a turn. */
  method StoreLE(n: nat, width: nat) returns (bs: seq<byte>)
    ensures bs == PutLE(n, width)
  {
    bs := [];
    var rest := n;
    for i := 0 to width
      invariant bs + PutLE(rest, width - i) == PutLE(n, width)
    {
      assert PutLE(rest, width - i) == [(rest % 256) as byte] + PutLE(rest / 256, width - i - 1);
      bs := bs + [(rest % 256) as byte];
      rest := rest / 256;
    }
    assert bs + [] == bs;
  }

  /** Each byte is added at its own weight. */
  method LoadLE(bs: seq<byte>) returns (n: nat)
    ensures n == GetLE(bs)
  {
    hide GetLE;
    n := 0;
    var weight: nat := 1;
    assert bs[0..] == bs;
    for i := 0 to |bs|
      invariant n + weight * GetLE(bs[i..]) == GetLE(bs)
    {
      var b: nat := ByteValue(bs[i]);
      FirstByte(bs, i);
      Shift(weight, b, GetLE(bs[i + 1..]));
      n := n + weight * b;
      weight := weight * 256;
    }
    NothingLeft(bs);
  }

  function ByteValue(b: byte): nat {
    b as int
  }

  lemma FirstByte(bs: seq<byte>, i: nat)
    requires i < |bs|
    ensures GetLE(bs[i..]) == ByteValue(bs[i]) + 256 * GetLE(bs[i + 1..])
  {
    assert bs[i..][1..] == bs[i + 1..];
  }

  lemma NothingLeft(bs: seq<byte>)
    ensures GetLE(bs[|bs|..]) == 0
  {
  }

  lemma Shift(w: nat, b: nat, g: nat)
    ensures w * (b + 256 * g) == w * b + (w * 256) * g
    ensures w * b >= 0
  {
  }

  class Writer {
    var buf: seq<byte>

    constructor ()
      ensures buf == []
    {
      buf := [];
    }

    method Word(n: nat, width: nat)
      modifies this
      ensures buf == old(buf) + PutLE(n, width)
    {
      var bs := StoreLE(n, width);
      buf := buf + bs;
    }

    method Raw(bs: seq<byte>)
      modifies this
      ensures buf == old(buf) + bs
    {
      buf := buf + bs;
    }

    /** Length-prefixed text; a text beyond the bound is refused before anything is written. */
    method Text(t: string) returns (ok: bool)
      requires IsBytes(t)
      modifies this
      ensures ok <==> |t| <= MAX_STRING
      ensures buf == if ok then old(buf) + Put(TText, VText(t)) else old(buf)
    {
      if |t| > MAX_STRING {
        return false;
      }
      Word(|t|, 4);
      Raw(Bytes(t));
      assert buf == old(buf) + (PutLE(|t|, 4) + Bytes(t));
      return true;
    }

    method Scalar(ty: Ty, v: Val)
      requires Fits(ty, v) && !ty.TText? && !ty.TList? && !ty.TOpt? && !ty.TRow?
      modifies this
      ensures buf == old(buf) + Put(ty, v)
    {
      hide PutLE;
      match ty
      case TCode(_) => Word(v.n, 1);
      case TFlag => Word(if v.b then 1 else 0, 1);
      case TU32 => Word(v.n, 4);
      case TU64 => Word(v.n, 8);
      case TI64 => Word(Unsigned64(v.n), 8);
    }

    method Value(ty: Ty, v: Val)
      requires Fits(ty, v)
      modifies this
      ensures buf == old(buf) + Put(ty, v)
      decreases ty, 0
    {
      hide PutLE, Bytes, PutRow, PutRows;
      match ty
      case TText =>
        var ok := Text(v.t);
        assert ok && v == VText(v.t);
      case TList(item) =>
        Word(|v.rows|, 4);
        Rows(item, v.rows);
        assert buf == old(buf) + (PutLE(|v.rows|, 4) + PutRows(item, v.rows));
      case TOpt(item) =>
        if v.opt.Some? {
          Word(1, 1);
          Fields(item, v.opt.value);
          assert buf == old(buf) + (PutLE(1, 1) + PutRow(item, v.opt.value));
        } else {
          Word(0, 1);
        }
      case TRow(item) => Fields(item, v.row);
      case _ => Scalar(ty, v);
    }

    /** The fields of a row, in order. */
    method Fields(tys: seq<Ty>, vs: Row)
      requires FitsRow(tys, vs)
      modifies this
      ensures buf == old(buf) + PutRow(tys, vs)
      decreases tys, 1
    {
      for i := 0 to |tys|
        invariant forall j :: i <= j < |tys| ==> Fits(tys[j], vs[j])
        invariant FitsRow(tys[i..], vs[i..])
        invariant buf + PutRow(tys[i..], vs[i..]) == old(buf) + PutRow(tys, vs)
      {
        ghost var before, rest := buf, PutRow(tys[i + 1..], vs[i + 1..]);
        TailFits(tys, vs, i);
        assert PutRow(tys[i..], vs[i..]) == Put(tys[i], vs[i]) + rest;
        Value(tys[i], vs[i]);
        assert before + (Put(tys[i], vs[i]) + rest) == buf + rest;
      }
      assert buf + [] == buf;
    }

    method Rows(tys: seq<Ty>, rows: seq<Row>)
      requires forall j :: 0 <= j < |rows| ==> FitsRow(tys, rows[j])
      modifies this
      ensures buf == old(buf) + PutRows(tys, rows)
      decreases tys, 2
    {
      for i := 0 to |rows|
        invariant buf + PutRows(tys, rows[i..]) == old(buf) + PutRows(tys, rows)
      {
        ghost var before, rest := buf, PutRows(tys, rows[i + 1..]);
        assert rows[i..][1..] == rows[i + 1..];
        Fields(tys, rows[i]);
        assert before + (PutRow(tys, rows[i]) + rest) == buf + rest;
      }
      assert buf + [] == buf;
    }
  }

  lemma TailFits(tys: seq<Ty>, vs: Row, i: nat)
    requires i < |tys| == |vs| && FitsRow(tys[i..], vs[i..])
    ensures FitsRow(tys[i + 1..], vs[i + 1..])
    ensures tys[i..][1..] == tys[i + 1..] && vs[i..][1..] == vs[i + 1..]
  {
    var t, v := tys[i + 1..], vs[i + 1..];
    forall j | 0 <= j < |t| ensures Fits(t[j], v[j]) {
      assert t[j] == tys[i..][j + 1] && v[j] == vs[i..][j + 1];
    }
  }

  class Reader {
    const data: seq<byte>
    var pos: nat
    var failed: bool

    ghost predicate Valid()
      reads this
    {
      pos <= |data|
    }

    /** What is left to read. */
    ghost function Rest(): seq<byte>
      requires Valid()
      reads this
    {
      data[pos..]
    }

    constructor (bytes: seq<byte>)
      ensures Valid() && Rest() == bytes && !failed
    {
      data, pos, failed := bytes, 0, false;
    }

    method Word(width: nat) returns (n: nat)
      requires Valid()
      modifies this
      ensures Valid()
      ensures GetInt(old(Rest()), width).Some? ==>
        failed == old(failed) && GetInt(old(Rest()), width) == Some((n, Rest()))
      ensures GetInt(old(Rest()), width).None? ==> failed && n == 0 && Rest() == old(Rest())
    {
      if |data| - pos < width {
        failed := true;
        return 0;
      }
      ghost var before := Rest();
      assert before[..width] == data[pos..pos + width] && before[width..] == data[pos + width..];
      n := LoadLE(data[pos..pos + width]);
      pos := pos + width;
    }

    /** Text beyond the bound, or longer than what is left, fails; so does any read after a
        failure. */
    method Text() returns (t: string)
      requires Valid()
      modifies this
      ensures Valid()
      ensures old(failed) ==> failed
      ensures !old(failed) && Get(TText, old(Rest())).Some? ==>
        !failed && Get(TText, old(Rest())) == Some((VText(t), Rest()))
      ensures Get(TText, old(Rest())).None? ==> failed
    {
      var len := Word(4);
      if failed || len > MAX_STRING || len > |data| - pos {
        failed := true;
        return "";
      }
      ghost var before := Rest();
      assert before[..len] == data[pos..pos + len] && before[len..] == data[pos + len..];
      t := Chars(data[pos..pos + len]);
      pos := pos + len;
    }

    /** One value of the given type; nothing, and a failure that sticks, on bad input. */
    method Value(ty: Ty) returns (r: Option<Val>)
      requires Valid() && !failed
      modifies this
      ensures Valid()
      ensures failed <==> Get(ty, old(Rest())).None?
      ensures r.Some? <==> Get(ty, old(Rest())).Some?
      ensures r.Some? ==> Get(ty, old(Rest())) == Some((r.value, Rest()))
      decreases ty, 0
    {
      match ty
      case TCode(limit) =>
        var n := Word(1);
        if failed || n >= limit {
          failed := true;
          return None;
        }
        return Some(VNum(n));
      case TFlag =>
        var n := Word(1);
        return if failed then None else Some(VFlag(n != 0));
      case TU32 =>
        var n := Word(4);
        return if failed then None else Some(VNum(n));
      case TU64 =>
        var n := Word(8);
        return if failed then None else Some(VNum(n));
      case TI64 =>
        var n := Word(8);
        return if failed then None else Some(VNum(Signed64(n)));
      case TText =>
        var t := Text();
        return if failed then None else Some(VText(t));
      case TList(item) =>
        var n := Word(4);
        if failed || n > MAX_COUNT {
          failed := true;
          return None;
        }
        var rows := Rows(item, n);
        return if rows.None? then None else Some(VList(rows.value));
      case TOpt(item) =>
        var n := Word(1);
        if failed {
          return None;
        }
        if n == 0 {
          return Some(VOpt(None));
        }
        var row := Fields(item);
        return if row.None? then None else Some(VOpt(row));
      case TRow(item) =>
        var row := Fields(item);
        return if row.None? then None else Some(VRow(row.value));
    }

    method Fields(tys: seq<Ty>) returns (r: Option<Row>)
      requires Valid() && !failed
      modifies this
      ensures Valid()
      ensures failed <==> GetRow(tys, old(Rest())).None?
      ensures r.Some? <==> GetRow(tys, old(Rest())).Some?
      ensures r.Some? ==> GetRow(tys, old(Rest())) == Some((r.value, Rest()))
      decreases tys, 1
    {
      var row: Row := [];
      ghost var whole := GetRow(tys, Rest());
      PrependNone(whole);
      assert tys[0..] == tys;
      for i := 0 to |tys|
        invariant Valid() && !failed
        invariant whole == Prepended(row, GetRow(tys[i..], Rest()))
      {
        assert tys[i..][1..] == tys[i + 1..];
        ghost var before := row;
        var v := Value(tys[i]);
        if v.None? {
          return None;
        }
        row := row + [v.value];
        PrependOne(before, v.value, GetRow(tys[i + 1..], Rest()));
      }
      assert row + [] == row;
      return Some(row);
    }

    method Rows(tys: seq<Ty>, count: nat) returns (r: Option<seq<Row>>)
      requires Valid() && !failed
      modifies this
      ensures Valid()
      ensures failed <==> GetRows(tys, count, old(Rest())).None?
      ensures r.Some? <==> GetRows(tys, count, old(Rest())).Some?
      ensures r.Some? ==> GetRows(tys, count, old(Rest())) == Some((r.value, Rest()))
      decreases tys, 2
    {
      var rows: seq<Row> := [];
      ghost var whole := GetRows(tys, count, Rest());
      PrependNone(whole);
      for i := 0 to count
        invariant Valid() && !failed
        invariant whole == Prepended(rows, GetRows(tys, count - i, Rest()))
      {
        ghost var before := rows;
        var v := Fields(tys);
        if v.None? {
          return None;
        }
        rows := rows + [v.value];
        PrependOne(before, v.value, GetRows(tys, count - i - 1, Rest()));
      }
      assert rows + [] == rows;
      return Some(rows);
    }
  }

  /** A sequence read so far, put in front of what a further read yields. */
  ghost function Prepended<T>(front: seq<T>, p: Parsed<seq<T>>): Parsed<seq<T>> {
    if p.None? then None else Some((front + p.value.0, p.value.1))
  }

  lemma PrependNone<T>(p: Parsed<seq<T>>)
    ensures Prepended([], p) == p
  {
    if p.Some? {
      assert [] + p.value.0 == p.value.0;
    }
  }

  lemma PrependOne<T>(front: seq<T>, x: T, p: Parsed<seq<T>>)
    ensures Prepended(front, Prepended([x], p)) == Prepended(front + [x], p)
  {
    if p.Some? {
      assert front + ([x] + p.value.0) == front + [x] + p.value.0;
    }
  }
}
