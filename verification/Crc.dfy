/** CRC-32 as in section 3.2.9 of IEEE 802.3, in its reflected form: the table-driven loop
    computes bit-by-bit division, and a sealed byte string survives no change confined to
    four consecutive bytes. */
module Crc {
  import opened Wire

  const POLYNOMIAL: bv32 := 0xEDB88320
  const ONES: bv32 := 0xFFFF_FFFF

  // Word operations by name, so that a proof can treat them as symbols.

  function Xor(a: bv32, b: bv32): bv32 { a ^ b }
  function Or(a: bv32, b: bv32): bv32 { a | b }
  function Half(w: bv32): bv32 { w >> 1 }
  predicate Odd(w: bv32) { w & 1 == 1 }
  function LowByte(w: bv32): bv32 { w & 0xFF }
  function Down(w: bv32): bv32 { w >> 8 }
  function Up(w: bv32): bv32 { w << 8 }

  // ---- Reference: division one message bit at a time ----

  function DivideBit(reg: bv32, bit: bool): bv32 {
    if Odd(reg) != bit then Xor(POLYNOMIAL, Half(reg)) else Half(reg)
  }

  function Divide(reg: bv32, bits: seq<bool>): bv32 {
    if bits == [] then reg else DivideBit(Divide(reg, bits[..|bits| - 1]), bits[|bits| - 1])
  }

  /** The bits of a word in transmission order, least significant first. */
  function Bits(w: bv32, count: nat): seq<bool> {
    if count == 0 then [] else [Odd(w)] + Bits(Half(w), count - 1)
  }

  function MessageBits(data: seq<byte>): seq<bool> {
    if data == [] then [] else MessageBits(data[..|data| - 1]) + Bits(data[|data| - 1] as bv32, 8)
  }

  /** The checksum: complement in, divide, complement out. */
  function Checksum(data: seq<byte>): bv32 {
    Xor(Divide(ONES, MessageBits(data)), ONES)
  }

  // ---- The register, a byte at a time ----

  function BitStep(c: bv32): bv32 {
    if Odd(c) then Xor(POLYNOMIAL, Half(c)) else Half(c)
  }

  function Steps(c: bv32, k: nat): bv32
    decreases k
  {
    if k == 0 then c else Steps(BitStep(c), k - 1)
  }

  function ByteSteps(c: bv32): bv32 {
    Steps(c, 8)
  }

  function Update(reg: bv32, b: byte): bv32 {
    ByteSteps(Xor(reg, b as bv32))
  }

  function Register(start: bv32, data: seq<byte>): bv32 {
    if data == [] then start else Update(Register(start, data[..|data| - 1]), data[|data| - 1])
  }

  // ---- Linearity ----

  lemma OddXor(a: bv32, b: bv32)
    ensures Odd(Xor(a, b)) <==> Odd(a) != Odd(b)
  {
    assert (a ^ b) & 1 == (a & 1) ^ (b & 1);
    assert a & 1 == 0 || a & 1 == 1;
    assert b & 1 == 0 || b & 1 == 1;
  }

  lemma HalfXor(a: bv32, b: bv32)
    ensures Half(Xor(a, b)) == Xor(Half(a), Half(b))
  {
  }

  lemma XorAssociates(a: bv32, b: bv32, c: bv32)
    ensures Xor(Xor(a, b), c) == Xor(a, Xor(b, c))
  {
  }

  lemma XorCommutes(a: bv32, b: bv32)
    ensures Xor(a, b) == Xor(b, a)
  {
  }

  lemma XorTwice(a: bv32, b: bv32)
    ensures Xor(a, Xor(a, b)) == b
  {
  }

  lemma XorCancels(p: bv32, a: bv32, b: bv32)
    ensures Xor(Xor(p, a), Xor(p, b)) == Xor(a, b)
    ensures Xor(Xor(p, a), b) == Xor(p, Xor(a, b))
    ensures Xor(a, Xor(p, b)) == Xor(p, Xor(a, b))
  {
    hide Xor;
    XorAssociates(p, a, b);
    XorAssociates(a, p, b);
    XorAssociates(a, p, Xor(p, b));
    XorCommutes(p, a);
    XorTwice(p, b);
  }

  lemma BitStepLinear(a: bv32, b: bv32)
    ensures BitStep(Xor(a, b)) == Xor(BitStep(a), BitStep(b))
  {
    hide Xor, Half, Odd;
    OddXor(a, b);
    HalfXor(a, b);
    XorCancels(POLYNOMIAL, Half(a), Half(b));
  }

  lemma {:induction false} StepsLinear(a: bv32, b: bv32, k: nat)
    ensures Steps(Xor(a, b), k) == Xor(Steps(a, k), Steps(b, k))
    decreases k
  {
    hide BitStep, Xor;
    if k > 0 {
      BitStepLinear(a, b);
      StepsLinear(BitStep(a), BitStep(b), k - 1);
    }
  }

  /** A word whose low byte is clear just shifts. */
  lemma ByteStepsShift(c: bv32)
    requires LowByte(c) == 0
    ensures ByteSteps(c) == Down(c)
  {
    EightSteps(c);
  }

  lemma EightSteps(c: bv32)
    ensures ByteSteps(c) == BitStep(BitStep(BitStep(BitStep(BitStep(BitStep(BitStep(BitStep(c))))))))
  {
    hide BitStep;
    var c2 := BitStep(BitStep(c));
    var c4 := BitStep(BitStep(c2));
    var c6 := BitStep(BitStep(c4));
    assert Steps(c, 8) == Steps(c2, 6);
    assert Steps(c2, 6) == Steps(c4, 4);
    assert Steps(c4, 4) == Steps(c6, 2);
    assert Steps(c6, 2) == Steps(BitStep(c6), 1) == Steps(BitStep(BitStep(c6)), 0);
  }

  /** The table form of a byte step. */
  lemma ByteStepsSplit(c: bv32)
    ensures ByteSteps(c) == Xor(ByteSteps(LowByte(c)), Down(c))
  {
    hide ByteSteps, Xor, LowByte, Down;
    SplitWord(c);
    StepsLinear(LowByte(c), c & 0xFFFF_FF00, 8);
    ByteStepsShift(c & 0xFFFF_FF00);
    ByteStepsAre(LowByte(c));
    ByteStepsAre(c & 0xFFFF_FF00);
    ByteStepsAre(c);
  }

  lemma ByteStepsAre(c: bv32)
    ensures ByteSteps(c) == Steps(c, 8)
  {
  }

  lemma SplitWord(c: bv32)
    ensures c == Xor(LowByte(c), c & 0xFFFF_FF00)
    ensures LowByte(c & 0xFFFF_FF00) == 0
    ensures Down(c & 0xFFFF_FF00) == Down(c)
  {
  }

  lemma TableForm(reg: bv32, b: byte)
    ensures Update(reg, b) == Xor(ByteSteps(LowByte(Xor(reg, b as bv32))), Down(reg))
  {
    ByteStepsSplit(Xor(reg, b as bv32));
    DownIgnoresByte(reg, b);
    hide ByteSteps, Xor, LowByte, Down;
  }

  lemma DownIgnoresByte(reg: bv32, b: byte)
    ensures Down(Xor(reg, b as bv32)) == Down(reg)
  {
  }

  // ---- The register divides ----

  /** One message bit: the rest of the word waits one place further down. */
  lemma DivideBitStep(reg: bv32, w: bv32)
    ensures BitStep(Xor(reg, w)) == Xor(DivideBit(reg, Odd(w)), Half(w))
  {
    hide Xor, Half, Odd;
    OddXor(reg, w);
    HalfXor(reg, w);
    XorCancels(POLYNOMIAL, Half(reg), Half(w));
  }

  function Halved(w: bv32, count: nat): bv32 {
    if count == 0 then w else Halved(Half(w), count - 1)
  }

  /** Stepping a register with a word folded in is dividing by the word's bits. */
  lemma {:induction false} StepsDivide(reg: bv32, w: bv32, count: nat)
    ensures Steps(Xor(reg, w), count) == Xor(Divide(reg, Bits(w, count)), Halved(w, count))
    decreases count
  {
    hide BitStep, DivideBit, Xor, Half, Odd;
    if count > 0 {
      DivideBitStep(reg, w);
      StepsDivide(DivideBit(reg, Odd(w)), Half(w), count - 1);
      DivideFirst(reg, Odd(w), Bits(Half(w), count - 1));
    }
  }

  lemma DivideFirst(reg: bv32, bit: bool, rest: seq<bool>)
    ensures Divide(reg, [bit] + rest) == Divide(DivideBit(reg, bit), rest)
  {
    hide DivideBit;
    DivideConcat(reg, [bit], rest);
    assert [bit][..0] == [];
  }

  lemma DivideByte(reg: bv32, b: byte)
    ensures Update(reg, b) == Divide(reg, Bits(b as bv32, 8))
  {
    hide BitStep, DivideBit, Xor, Divide, Bits;
    StepsDivide(reg, b as bv32, 8);
    ByteRunsOut(b);
    XorZero(Divide(reg, Bits(b as bv32, 8)));
  }

  lemma ByteRunsOut(b: byte)
    ensures Halved(b as bv32, 8) == 0
  {
    hide Half;
    var w := b as bv32;
    EightHalves(b);
    assert Halved(w, 8) == Halved(Half(w), 7);
    var w2 := Half(Half(w));
    assert Halved(Half(w), 7) == Halved(w2, 6);
    assert Halved(w2, 6) == Halved(Half(Half(w2)), 4);
    var w4 := Half(Half(w2));
    assert Halved(w4, 4) == Halved(Half(Half(w4)), 2);
    var w6 := Half(Half(w4));
    assert Halved(w6, 2) == Halved(Half(w6), 1);
    assert Halved(Half(w6), 1) == Half(Half(w6));
  }

  lemma EightHalves(b: byte)
    ensures Half(Half(Half(Half(Half(Half(Half(Half(b as bv32)))))))) == 0
  {
  }

  lemma XorZero(a: bv32)
    ensures Xor(a, 0) == a
  {
  }

  lemma {:induction false} DivideConcat(reg: bv32, a: seq<bool>, b: seq<bool>)
    ensures Divide(reg, a + b) == Divide(Divide(reg, a), b)
  {
    hide DivideBit;
    if b == [] {
      assert a + b == a;
    } else {
      var ab := a + b;
      assert ab[..|ab| - 1] == a + b[..|b| - 1];
      DivideConcat(reg, a, b[..|b| - 1]);
    }
  }

  /** The byte-wise register is the remainder register of the bit-wise division. */
  lemma {:induction false} RegisterDivides(start: bv32, data: seq<byte>)
    ensures Register(start, data) == Divide(start, MessageBits(data))
  {
    hide Update, Bits, DivideBit;
    if data != [] {
      var init, last := data[..|data| - 1], data[|data| - 1];
      RegisterDivides(start, init);
      DivideByte(Register(start, init), last);
      DivideConcat(start, MessageBits(init), Bits(last as bv32, 8));
    }
  }

  // ---- Injectivity ----

  lemma BitStepInjective(a: bv32, b: bv32)
    requires BitStep(a) == BitStep(b)
    ensures a == b
  {
  }

  lemma {:induction false} StepsInjective(a: bv32, b: bv32, k: nat)
    requires Steps(a, k) == Steps(b, k)
    ensures a == b
    decreases k
  {
    hide BitStep;
    if k > 0 {
      StepsInjective(BitStep(a), BitStep(b), k - 1);
      BitStepInjective(a, b);
    }
  }

  lemma SameXor(r: bv32, a: bv32, b: bv32)
    requires Xor(r, a) == Xor(r, b)
    ensures a == b
  {
    assert a == r ^ (r ^ a) && b == r ^ (r ^ b);
  }

  /** For a fixed suffix, different registers stay different. */
  lemma {:induction false} RegisterInjective(a: bv32, b: bv32, data: seq<byte>)
    requires Register(a, data) == Register(b, data)
    ensures a == b
  {
    hide Xor, Steps;
    if data != [] {
      var init, last := data[..|data| - 1], data[|data| - 1] as bv32;
      var x, y := Register(a, init), Register(b, init);
      StepsInjective(Xor(x, last), Xor(y, last), 8);
      XorCommutes(x, last);
      XorCommutes(y, last);
      SameXor(last, x, y);
      RegisterInjective(a, b, init);
    }
  }

  lemma {:induction false} RegisterConcat(start: bv32, a: seq<byte>, b: seq<byte>)
    ensures Register(start, a + b) == Register(Register(start, a), b)
  {
    hide Update;
    if b == [] {
      assert a + b == a;
    } else {
      var ab := a + b;
      assert ab[..|ab| - 1] == a + b[..|b| - 1];
      RegisterConcat(start, a, b[..|b| - 1]);
    }
  }

  // ---- Four bytes at a time ----

  function LoadWord(bs: seq<byte>): bv32
    requires |bs| == 4
  {
    Lanes(bs[0], bs[1], bs[2], bs[3])
  }

  function Lanes(b0: byte, b1: byte, b2: byte, b3: byte): bv32 {
    Or(Or(Or(b0 as bv32, (b1 as bv32) << 8), (b2 as bv32) << 16), (b3 as bv32) << 24)
  }

  function StoreWord(w: bv32): (bs: seq<byte>)
    ensures |bs| == 4
  {
    [(w & 0xFF) as byte, ((w >> 8) & 0xFF) as byte, ((w >> 16) & 0xFF) as byte, ((w >> 24) & 0xFF) as byte]
  }

  lemma LanesOfWord(w: bv32)
    ensures Lanes((w & 0xFF) as byte, ((w >> 8) & 0xFF) as byte,
                  ((w >> 16) & 0xFF) as byte, ((w >> 24) & 0xFF) as byte) == w
  {
  }

  lemma StoreLoad(w: bv32)
    ensures LoadWord(StoreWord(w)) == w
  {
    hide Lanes;
    LanesOfWord(w);
  }

  lemma FirstLane(b0: byte, b1: byte, b2: byte, b3: byte)
    ensures (Lanes(b0, b1, b2, b3) & 0xFF) as byte == b0
  {
  }

  lemma SecondLane(b0: byte, b1: byte, b2: byte, b3: byte)
    ensures ((Lanes(b0, b1, b2, b3) >> 8) & 0xFF) as byte == b1
  {
  }

  lemma ThirdLane(b0: byte, b1: byte, b2: byte, b3: byte)
    ensures ((Lanes(b0, b1, b2, b3) >> 16) & 0xFF) as byte == b2
  {
  }

  lemma FourthLane(b0: byte, b1: byte, b2: byte, b3: byte)
    ensures ((Lanes(b0, b1, b2, b3) >> 24) & 0xFF) as byte == b3
  {
  }

  lemma LoadStore(bs: seq<byte>)
    requires |bs| == 4
    ensures StoreWord(LoadWord(bs)) == bs
  {
    hide Lanes;
    FirstLane(bs[0], bs[1], bs[2], bs[3]);
    SecondLane(bs[0], bs[1], bs[2], bs[3]);
    ThirdLane(bs[0], bs[1], bs[2], bs[3]);
    FourthLane(bs[0], bs[1], bs[2], bs[3]);
  }

  predicate TopClear(x: bv32) { x & 0xFF00_0000 == 0 }

  /** A byte met one step later could have been folded in a byte higher up. */
  lemma FoldLater(c: bv32, x: bv32)
    requires TopClear(x)
    ensures Xor(ByteSteps(c), x) == ByteSteps(Xor(c, Up(x)))
  {
    hide Steps, Xor, Up, Down, LowByte;
    UpDown(x);
    StepsLinear(c, Up(x), 8);
    ByteStepsShift(Up(x));
  }

  lemma UpDown(x: bv32)
    requires TopClear(x)
    ensures LowByte(Up(x)) == 0 && Down(Up(x)) == x
  {
  }

  function WordSteps(c: bv32): bv32 {
    ByteSteps(ByteSteps(ByteSteps(ByteSteps(c))))
  }

  lemma RegisterOfFour(start: bv32, bs: seq<byte>)
    requires |bs| == 4
    ensures Register(start, bs) == Update(Update(Update(Update(start, bs[0]), bs[1]), bs[2]), bs[3])
  {
    hide Update;
    assert bs[..4] == bs && bs[..4][..3] == bs[..3] && bs[..3][..2] == bs[..2];
    assert bs[..2][..1] == bs[..1] && bs[..1][..0] == [];
    assert Register(start, bs[..1]) == Update(start, bs[0]);
    assert Register(start, bs[..2]) == Update(Register(start, bs[..1]), bs[1]);
    assert Register(start, bs[..3]) == Update(Register(start, bs[..2]), bs[2]);
  }

  lemma BytesClear(b: byte)
    ensures TopClear(b as bv32) && TopClear(Up(b as bv32)) && TopClear(Up(Up(b as bv32)))
  {
  }

  lemma Lifts(b: byte)
    ensures Up(b as bv32) == (b as bv32) << 8
    ensures Up(Up(b as bv32)) == (b as bv32) << 16
    ensures Up(Up(Up(b as bv32))) == (b as bv32) << 24
  {
  }

  predicate Disjoint(a: bv32, b: bv32) { a & b == 0 }

  lemma NoCommonBits(a: bv32, b: bv32)
    requires a & b == 0
    ensures a | b == a ^ b
  {
  }

  lemma DisjointOr(a: bv32, b: bv32)
    requires Disjoint(a, b)
    ensures Or(a, b) == Xor(a, b)
  {
    NoCommonBits(a, b);
  }

  lemma FirstTwo(b0: byte, b1: byte)
    ensures Disjoint(b0 as bv32, (b1 as bv32) << 8)
  {
  }

  lemma FirstThree(b0: byte, b1: byte, b2: byte)
    ensures Disjoint(Or(b0 as bv32, (b1 as bv32) << 8), (b2 as bv32) << 16)
  {
  }

  lemma AllFour(b0: byte, b1: byte, b2: byte, b3: byte)
    ensures Disjoint(Or(Or(b0 as bv32, (b1 as bv32) << 8), (b2 as bv32) << 16), (b3 as bv32) << 24)
  {
  }

  lemma LanesFold(b0: byte, b1: byte, b2: byte, b3: byte)
    ensures Lanes(b0, b1, b2, b3)
      == Xor(Xor(Xor(b0 as bv32, Up(b1 as bv32)), Up(Up(b2 as bv32))), Up(Up(Up(b3 as bv32))))
  {
    hide Xor, Or, Up, Disjoint;
    Lifts(b1);
    Lifts(b2);
    Lifts(b3);
    FirstTwo(b0, b1);
    FirstThree(b0, b1, b2);
    AllFour(b0, b1, b2, b3);
    DisjointOr(b0 as bv32, (b1 as bv32) << 8);
    DisjointOr(Or(b0 as bv32, (b1 as bv32) << 8), (b2 as bv32) << 16);
    DisjointOr(Or(Or(b0 as bv32, (b1 as bv32) << 8), (b2 as bv32) << 16), (b3 as bv32) << 24);
  }

  lemma LoadIsFold(start: bv32, bs: seq<byte>)
    requires |bs| == 4
    ensures Xor(Xor(Xor(Xor(start, bs[0] as bv32), Up(bs[1] as bv32)), Up(Up(bs[2] as bv32))),
      Up(Up(Up(bs[3] as bv32))))
      == Xor(start, LoadWord(bs))
  {
    hide Xor, Up, Lanes;
    LanesFold(bs[0], bs[1], bs[2], bs[3]);
    XorChain(start, bs[0] as bv32, Up(bs[1] as bv32), Up(Up(bs[2] as bv32)), Up(Up(Up(bs[3] as bv32))));
  }

  lemma XorChain(s: bv32, a: bv32, b: bv32, c: bv32, d: bv32)
    ensures Xor(Xor(Xor(Xor(s, a), b), c), d) == Xor(s, Xor(Xor(Xor(a, b), c), d))
  {
    hide Xor;
    XorAssociates(s, a, b);
    XorAssociates(s, Xor(a, b), c);
    XorAssociates(s, Xor(Xor(a, b), c), d);
  }

  /** The first two bytes, with the words still to come folded in. */
  lemma TwoBytes(c0: bv32, b: byte, c: byte)
    ensures Update(Update(ByteSteps(c0), b), c)
      == ByteSteps(ByteSteps(ByteSteps(Xor(Xor(c0, Up(b as bv32)), Up(Up(c as bv32))))))
  {
    hide ByteSteps, Xor, Up, TopClear;
    var x, y := b as bv32, c as bv32;
    BytesClear(b);
    BytesClear(c);
    FoldLater(c0, x);
    var c1 := Xor(c0, Up(x));
    FoldLater(ByteSteps(c1), y);
    FoldLater(c1, Up(y));
  }

  /** Four bytes act on the register as one word. */
  lemma WordUpdate(start: bv32, bs: seq<byte>)
    requires |bs| == 4
    ensures Register(start, bs) == WordSteps(Xor(start, LoadWord(bs)))
  {
    hide ByteSteps, Xor, Up, TopClear, LoadWord, Register;
    RegisterOfFour(start, bs);
    var c0 := Xor(start, bs[0] as bv32);
    TwoBytes(c0, bs[1], bs[2]);
    LastOfFour(Xor(Xor(c0, Up(bs[1] as bv32)), Up(Up(bs[2] as bv32))), bs[3]);
    LoadIsFold(start, bs);
  }

  lemma LastOfFour(c2: bv32, b: byte)
    ensures Update(ByteSteps(ByteSteps(ByteSteps(c2))), b) == WordSteps(Xor(c2, Up(Up(Up(b as bv32)))))
  {
    hide ByteSteps, Xor, Up, TopClear;
    var x := b as bv32;
    BytesClear(b);
    FoldLater(ByteSteps(ByteSteps(c2)), x);
    FoldLater(ByteSteps(c2), Up(x));
    FoldLater(c2, Up(Up(x)));
  }

  lemma WordStepsInjective(a: bv32, b: bv32)
    requires WordSteps(a) == WordSteps(b)
    ensures a == b
  {
    hide Steps;
    StepsInjective(ByteSteps(ByteSteps(ByteSteps(a))), ByteSteps(ByteSteps(ByteSteps(b))), 8);
    StepsInjective(ByteSteps(ByteSteps(a)), ByteSteps(ByteSteps(b)), 8);
    StepsInjective(ByteSteps(a), ByteSteps(b), 8);
    StepsInjective(a, b, 8);
  }

  // ---- Sealed byte strings ----

  /** The last four bytes are the checksum of the rest. */
  predicate Sealed(data: seq<byte>) {
    |data| >= 4 && LoadWord(data[|data| - 4..]) == Checksum(data[..|data| - 4])
  }

  lemma SealedIsSealed(body: seq<byte>)
    ensures Sealed(body + StoreWord(Checksum(body)))
  {
    var w := StoreWord(Checksum(body));
    assert (body + w)[|body|..] == w && (body + w)[..|body|] == body;
    StoreLoad(Checksum(body));
  }

  /** A byte string is sealed exactly when it drives the register to one fixed value. */
  lemma SealedIffResidue(data: seq<byte>)
    requires |data| >= 4
    ensures Sealed(data) <==> Register(ONES, data) == WordSteps(ONES)
  {
    hide Update, WordSteps, LoadWord, Divide, Xor;
    var body, tail := data[..|data| - 4], data[|data| - 4..];
    var reg := Register(ONES, body);
    assert body + tail == data;
    RegisterConcat(ONES, body, tail);
    WordUpdate(reg, tail);
    RegisterDivides(ONES, body);
    ComplementIff(LoadWord(tail), reg);
    if Register(ONES, data) == WordSteps(ONES) {
      WordStepsInjective(Xor(reg, LoadWord(tail)), ONES);
    }
  }

  lemma ComplementIff(w: bv32, reg: bv32)
    ensures w == Xor(reg, ONES) <==> Xor(reg, w) == ONES
  {
    hide Xor;
    XorTwice(reg, w);
    XorTwice(reg, ONES);
  }

  /** No two sealed byte strings of one length differ only inside four consecutive bytes. */
  lemma BurstIsDetected(f: seq<byte>, g: seq<byte>, i: nat)
    requires Sealed(f) && Sealed(g) && |f| == |g|
    requires i + 4 <= |f| && f[..i] == g[..i] && f[i + 4..] == g[i + 4..]
    ensures f == g
  {
    hide Sealed, Update, WordSteps, LoadWord, StoreWord, Xor;
    SealedIffResidue(f);
    SealedIffResidue(g);
    var head, p, q, rest := f[..i], f[i..i + 4], g[i..i + 4], f[i + 4..];
    assert f == head + (p + rest) && g == head + (q + rest);
    var reg := Register(ONES, head);
    RegisterConcat(ONES, head, p + rest);
    RegisterConcat(ONES, head, q + rest);
    RegisterConcat(reg, p, rest);
    RegisterConcat(reg, q, rest);
    RegisterInjective(Register(reg, p), Register(reg, q), rest);
    WordUpdate(reg, p);
    WordUpdate(reg, q);
    WordStepsInjective(Xor(reg, LoadWord(p)), Xor(reg, LoadWord(q)));
    SameXor(reg, LoadWord(p), LoadWord(q));
    LoadStore(p);
    LoadStore(q);
  }

  // ---- The check value ----

  /** The register after the first `n` of the nine digits. */
  function CheckRegister(n: nat): bv32 {
    match n
    case 0 => 0xFFFFFFFF
    case 1 => 0x7C231048
    case 2 => 0xB0ACBB32
    case 3 => 0x77B79C2D
    case 4 => 0x641C1F5C
    case 5 => 0x340AC5E3
    case 6 => 0xF68D2C9E
    case 7 => 0xAFFC9660
    case 8 => 0x651F2550
    case _ => 0x340BC6D9
  }

  const CHECK_DATA: seq<byte> := [0x31, 0x32, 0x33, 0x34, 0x35, 0x36, 0x37, 0x38, 0x39]

  lemma CheckStep(n: nat)
    requires n < 9
    ensures Update(CheckRegister(n), CHECK_DATA[n]) == CheckRegister(n + 1)
  {
    EightSteps(Xor(CheckRegister(n), CHECK_DATA[n] as bv32));
  }

  lemma {:induction false} CheckPrefix(n: nat)
    requires n <= 9
    ensures Register(ONES, CHECK_DATA[..n]) == CheckRegister(n)
  {
    hide Update;
    if n > 0 {
      CheckPrefix(n - 1);
      CheckStep(n - 1);
      assert CHECK_DATA[..n][..n - 1] == CHECK_DATA[..n - 1];
    }
  }

  /** The checksum of the digits "123456789" is the published check value of this CRC. */
  lemma CheckValue()
    ensures Checksum(CHECK_DATA) == 0xCBF4_3926
  {
    hide Register, Divide;
    CheckPrefix(9);
    assert CHECK_DATA[..9] == CHECK_DATA;
    RegisterDivides(ONES, CHECK_DATA);
  }

  // ---- The table-driven loop ----

  method BuildTable() returns (table: array<bv32>)
    ensures fresh(table) && table.Length == 256
    ensures forall i :: 0 <= i < 256 ==> table[i] == ByteSteps(i as bv32)
  {
    hide Xor, Half, Odd;
    table := new bv32[256];
    for i := 0 to 256
      invariant forall j :: 0 <= j < i ==> table[j] == ByteSteps(j as bv32)
    {
      var c := i as bv32;
      for k := 0 to 8
        invariant Steps(c, 8 - k) == Steps(i as bv32, 8)
      {
        c := if Odd(c) then Xor(POLYNOMIAL, Half(c)) else Half(c);
      }
      table[i] := c;
    }
  }

  /** The table-driven checksum is the checksum by bit-by-bit division. */
  method Crc32(data: seq<byte>) returns (crc: bv32)
    ensures crc == Checksum(data)
  {
    hide ByteSteps, Update, Divide, Xor, Down;
    var table := BuildTable();
    crc := ONES;
    for i := 0 to |data|
      invariant crc == Register(ONES, data[..i])
      invariant forall j :: 0 <= j < 256 ==> table[j] == ByteSteps(j as bv32)
    {
      RegisterNext(data, i);
      TableForm(crc, data[i]);
      var low := LowByte(Xor(crc, data[i] as bv32));
      LowByteIndex(Xor(crc, data[i] as bv32));
      assert table[low as int] == ByteSteps(low);
      crc := Xor(table[low as int], Down(crc));
    }
    assert data[..|data|] == data;
    RegisterDivides(ONES, data);
    crc := Xor(crc, ONES);
  }

  lemma RegisterNext(data: seq<byte>, i: nat)
    requires i < |data|
    ensures Register(ONES, data[..i + 1]) == Update(Register(ONES, data[..i]), data[i])
  {
    assert data[..i + 1][..i] == data[..i];
  }

  lemma LowByteIndex(w: bv32)
    ensures 0 <= LowByte(w) as int < 256
    ensures (LowByte(w) as int) as bv32 == LowByte(w)
  {
  }
}
