/** The table-driven CRC-32 against the register that is shifted a bit at a time. */
module Crc {
  // ----- reflection -----

  /** `1 << k`. */
  function Bit(k: nat): bv32
    requires k < 32
  {
    if k == 0 then 1 else Bit(k - 1) << 1
  }

  predicate Odd(x: bv32) { x & 1 == 1 }

  function Half(x: bv32): bv32 { x >> 1 }

  function Or(a: bv32, b: bv32): bv32 { a | b }

  /** The low bits of `val` mirrored: its lowest bit goes to `top`, the next to the bit below. */
  function Mirror(val: bv32, top: bv32): bv32
    decreases top
  {
    if top == 0 then 0 else Or(if Odd(val) then top else 0, Mirror(Half(val), Half(top)))
  }

  lemma BitDown(k: nat)
    requires k < 32
    ensures Half(Bit(k)) == (if k == 0 then 0 else Bit(k - 1)) && Bit(k) != 0
  {
    BitValues();
    if k < 8 { } else if k < 16 { } else if k < 24 { } else { }
  }

  lemma BitValues()
    ensures Bit(0) == 1 && Bit(1) == 2 && Bit(2) == 4 && Bit(3) == 8 && Bit(4) == 0x10 && Bit(5) == 0x20
    ensures Bit(6) == 0x40 && Bit(7) == 0x80 && Bit(8) == 0x100 && Bit(9) == 0x200 && Bit(10) == 0x400
    ensures Bit(11) == 0x800 && Bit(12) == 0x1000 && Bit(13) == 0x2000 && Bit(14) == 0x4000 && Bit(15) == 0x8000
    ensures Bit(16) == 0x1_0000 && Bit(17) == 0x2_0000 && Bit(18) == 0x4_0000 && Bit(19) == 0x8_0000
    ensures Bit(20) == 0x10_0000 && Bit(21) == 0x20_0000 && Bit(22) == 0x40_0000 && Bit(23) == 0x80_0000
    ensures Bit(24) == 0x100_0000 && Bit(25) == 0x200_0000 && Bit(26) == 0x400_0000 && Bit(27) == 0x800_0000
    ensures Bit(28) == 0x1000_0000 && Bit(29) == 0x2000_0000 && Bit(30) == 0x4000_0000 && Bit(31) == 0x8000_0000
  {
    assert Bit(3) == 8;
    assert Bit(7) == 0x80;
    assert Bit(11) == 0x800;
    assert Bit(15) == 0x8000;
    assert Bit(19) == 0x8_0000;
    assert Bit(23) == 0x80_0000;
    assert Bit(27) == 0x800_0000;
  }

  /** Mirrors the lowest `bits` bits. */
  method ReflectCrc(value: bv32, bits: nat) returns (result: bv32)
    requires 0 < bits <= 32
    ensures result == Mirror(value, Bit(bits - 1))
  {
    hide *;
    result := 0;
    var val, bit := value, 0;
    ghost var top := Bit(bits - 1);
    OrZero(Mirror(val, top));
    while bit < bits
      invariant 0 <= bit <= bits
      invariant top == if bit < bits then Bit(bits - 1 - bit) else 0
      invariant Or(result, Mirror(val, top)) == Mirror(value, Bit(bits - 1))
    {
      BitDown(bits - 1 - bit);
      MirrorStep(result, val, top);
      if Odd(val) {
        result := Or(result, Bit(bits - 1 - bit));
      }
      val := Half(val);
      bit := bit + 1;
      top := Half(top);
    }
    MirrorDone(val, result);
  }

  lemma OrZero(x: bv32)
    ensures Or(0, x) == x
  {
  }

  lemma OrMore(a: bv32, b: bv32, c: bv32)
    ensures Or(a, Or(b, c)) == Or(Or(a, b), c) && Or(a, 0) == a
  {
  }

  lemma MirrorDone(val: bv32, result: bv32)
    ensures Or(result, Mirror(val, 0)) == result
  {
  }

  lemma MirrorStep(result: bv32, val: bv32, top: bv32)
    requires top != 0
    ensures Or(result, Mirror(val, top))
      == Or(if Odd(val) then Or(result, top) else result, Mirror(Half(val), Half(top)))
  {
    hide Or, Odd, Half;
    OrMore(result, if Odd(val) then top else 0, Mirror(Half(val), Half(top)));
  }

  // ----- mirroring a whole word -----

  function Place(val: bv32, top: bv32): bv32 { if Odd(val) then top else 0 }

  /** Four bits of `val`, mirrored below `top`. */
  function Part(val: bv32, top: bv32): bv32 {
    Or(Place(val, top), Or(Place(Half(val), Half(top)),
      Or(Place(Half(Half(val)), Half(Half(top))), Place(Half(Half(Half(val))), Half(Half(Half(top)))))))
  }

  function Sixteenth(x: bv32): bv32 { x >> 4 }

  lemma Halves(x: bv32)
    ensures Half(Half(Half(Half(x)))) == Sixteenth(x)
    ensures Sixteenth(x) != 0 ==> x != 0 && Half(x) != 0 && Half(Half(x)) != 0 && Half(Half(Half(x))) != 0
  {
  }

  lemma MirrorPart(val: bv32, top: bv32)
    requires top != 0 && Half(top) != 0 && Half(Half(top)) != 0 && Half(Half(Half(top))) != 0
    ensures Mirror(val, top) == Or(Part(val, top), Mirror(Sixteenth(val), Sixteenth(top)))
  {
    hide Or, Odd, Half, Sixteenth, Place, Mirror;
    var v1, t1 := Half(val), Half(top);
    var v2, t2 := Half(v1), Half(t1);
    var v3, t3 := Half(v2), Half(t2);
    MirrorNext(val, top);
    MirrorNext(v1, t1);
    MirrorNext(v2, t2);
    MirrorNext(v3, t3);
    Halves(val);
    Halves(top);
    var rest := Mirror(Sixteenth(val), Sixteenth(top));
    OrMore(Place(v2, t2), Place(v3, t3), rest);
    OrMore(Place(v1, t1), Or(Place(v2, t2), Place(v3, t3)), rest);
    OrMore(Place(val, top), Or(Place(v1, t1), Or(Place(v2, t2), Place(v3, t3))), rest);
  }

  lemma MirrorNext(val: bv32, top: bv32)
    requires top != 0
    ensures Mirror(val, top) == Or(Place(val, top), Mirror(Half(val), Half(top)))
  {
  }

  /** A word mirrored, a nibble at a time. */
  function Mirrored(v: bv32): bv32 {
    var v1 := Sixteenth(v);
    var v2 := Sixteenth(v1);
    var v3 := Sixteenth(v2);
    var v4 := Sixteenth(v3);
    var v5 := Sixteenth(v4);
    var v6 := Sixteenth(v5);
    Or(Part(v, 0x8000_0000), Or(Part(v1, 0x800_0000), Or(Part(v2, 0x80_0000), Or(Part(v3, 0x8_0000),
      Or(Part(v4, 0x8000), Or(Part(v5, 0x800), Or(Part(v6, 0x80), Part(Sixteenth(v6), 8))))))))
  }

  lemma WordMirrored(v: bv32)
    ensures Mirror(v, 0x8000_0000) == Mirrored(v)
  {
    hide Or, Part, Mirror, Sixteenth, Half;
    TopParts();
    var v1 := Sixteenth(v);
    var v2 := Sixteenth(v1);
    var v3 := Sixteenth(v2);
    var v4 := Sixteenth(v3);
    var v5 := Sixteenth(v4);
    var v6 := Sixteenth(v5);
    MirrorPart(v, 0x8000_0000);
    MirrorPart(v1, 0x800_0000);
    MirrorPart(v2, 0x80_0000);
    MirrorPart(v3, 0x8_0000);
    MirrorPart(v4, 0x8000);
    MirrorPart(v5, 0x800);
    MirrorPart(v6, 0x80);
    MirrorPart(Sixteenth(v6), 8);
    MirrorDone(Sixteenth(Sixteenth(v6)), Part(Sixteenth(v6), 8));
  }

  lemma TopParts()
    ensures Sixteenth(0x8000_0000) == 0x800_0000 && Sixteenth(0x800_0000) == 0x80_0000
    ensures Sixteenth(0x80_0000) == 0x8_0000
    ensures Sixteenth(0x8_0000) == 0x8000 && Sixteenth(0x8000) == 0x800 && Sixteenth(0x800) == 0x80
    ensures Sixteenth(0x80) == 8
    ensures Sixteenth(8) == 0
    ensures forall t :: Sixteenth(t) != 0 || t == 8 ==>
      t != 0 && Half(t) != 0 && Half(Half(t)) != 0 && Half(Half(Half(t))) != 0
  {
  }

  // The same in closed form: ever larger groups of bits change places.

  function Swapped(x: bv32): bv32 {
    var a := ((x >> 1) & 0x5555_5555) | ((x & 0x5555_5555) << 1);
    var b := ((a >> 2) & 0x3333_3333) | ((a & 0x3333_3333) << 2);
    var c := ((b >> 4) & 0x0f0f_0f0f) | ((b & 0x0f0f_0f0f) << 4);
    var d := ((c >> 8) & 0x00ff_00ff) | ((c & 0x00ff_00ff) << 8);
    (d >> 16) | (d << 16)
  }

  function Nibble(v: bv32): bv32 { ((v & 1) << 3) | ((v & 2) << 1) | ((v & 4) >> 1) | ((v & 8) >> 3) }

  /** `x << 28`, and so on down. */
  function Up(x: bv32, places: bv32): bv32
    requires places < 32
  {
    x << places
  }

  lemma PartsAre(v: bv32)
    ensures Part(v, 0x8000_0000) == Up(Nibble(v), 28) && Part(v, 0x800_0000) == Up(Nibble(v), 24)
    ensures Part(v, 0x80_0000) == Up(Nibble(v), 20) && Part(v, 0x8_0000) == Up(Nibble(v), 16)
    ensures Part(v, 0x8000) == Up(Nibble(v), 12) && Part(v, 0x800) == Up(Nibble(v), 8)
    ensures Part(v, 0x80) == Up(Nibble(v), 4) && Part(v, 8) == Up(Nibble(v), 0)
  {
  }

  /** Eight nibbles as a word. */
  function Assembled(n0: bv32, n1: bv32, n2: bv32, n3: bv32, n4: bv32, n5: bv32, n6: bv32, n7: bv32): bv32 {
    (n0 << 28) | ((n1 << 24) | ((n2 << 20) | ((n3 << 16) | ((n4 << 12) | ((n5 << 8) | ((n6 << 4) | n7))))))
  }

  lemma AssembledIs(n0: bv32, n1: bv32, n2: bv32, n3: bv32, n4: bv32, n5: bv32, n6: bv32, n7: bv32)
    ensures Assembled(n0, n1, n2, n3, n4, n5, n6, n7)
         == Or(Up(n0, 28), Or(Up(n1, 24),
                              Or(Up(n2, 20), Or(Up(n3, 16), Or(Up(n4, 12), Or(Up(n5, 8), Or(Up(n6, 4), Up(n7, 0))))))))
  {
  }

  lemma SwappedAssembled(v: bv32)
    ensures var v1 := Sixteenth(v);
      var v2 := Sixteenth(v1);
      var v3 := Sixteenth(v2);
      var v4 := Sixteenth(v3);
      var v5 := Sixteenth(v4);
      var v6 := Sixteenth(v5);
      Swapped(v) == Assembled(Nibble(v), Nibble(v1), Nibble(v2), Nibble(v3), Nibble(v4), Nibble(v5), Nibble(v6),
                              Nibble(Sixteenth(v6)))
  {
  }

  lemma MirroredSwapped(v: bv32)
    ensures Mirrored(v) == Swapped(v)
  {
    hide Part, Nibble, Swapped, Or, Up, Sixteenth, Assembled;
    SwappedAssembled(v);
    var v1 := Sixteenth(v);
    var v2 := Sixteenth(v1);
    var v3 := Sixteenth(v2);
    var v4 := Sixteenth(v3);
    var v5 := Sixteenth(v4);
    var v6 := Sixteenth(v5);
    PartsAre(v);
    PartsAre(v1);
    PartsAre(v2);
    PartsAre(v3);
    PartsAre(v4);
    PartsAre(v5);
    PartsAre(v6);
    PartsAre(Sixteenth(v6));
    AssembledIs(Nibble(v), Nibble(v1), Nibble(v2), Nibble(v3), Nibble(v4), Nibble(v5), Nibble(v6),
                Nibble(Sixteenth(v6)));
  }

  // ----- the shift register -----

  const POLYNOMIAL: bv32 := 0x04c1_1db7
  const REVERSED: bv32 := 0xedb8_8320

  function Double(c: bv32): bv32 { c << 1 }

  function Xor(a: bv32, b: bv32): bv32 { a ^ b }

  predicate TopSet(c: bv32) { c & 0x8000_0000 != 0 }

  /** The register with its highest bit first, shifted left. */
  function StepLeft(c: bv32): bv32 {
    if TopSet(c) then Xor(Double(c), POLYNOMIAL) else Double(c)
  }

  /** The register with its lowest bit first, shifted right. */
  function StepRight(c: bv32): bv32 {
    if Odd(c) then Xor(Half(c), REVERSED) else Half(c)
  }

  /** The two registers are mirror images. */
  lemma StepMirrored(c: bv32)
    ensures Swapped(StepLeft(c)) == StepRight(Swapped(c))
  {
    hide Swapped, Double, Xor, TopSet, Odd, Half, POLYNOMIAL, REVERSED;
    SwappedShift(c);
    SwappedXor(Double(c), POLYNOMIAL);
    SwappedTop(c);
    SwappedPolynomial();
  }

  lemma SwappedShift(c: bv32)
    ensures Swapped(Double(c)) == Half(Swapped(c))
  {
    hide Swapped;
    SwappedDoubled(c);
  }

  lemma SwappedDoubled(c: bv32)
    ensures Swapped(c << 1) == Swapped(c) >> 1
  {
  }

  lemma SwappedXor(a: bv32, b: bv32)
    ensures Swapped(Xor(a, b)) == Xor(Swapped(a), Swapped(b))
  {
  }

  lemma SwappedTop(c: bv32)
    ensures TopSet(c) <==> Odd(Swapped(c))
  {
  }

  lemma SwappedPolynomial()
    ensures Swapped(POLYNOMIAL) == REVERSED
  {
  }

  function StepsRight(c: bv32, k: nat): bv32
    decreases k
  {
    if k == 0 then c else StepsRight(StepRight(c), k - 1)
  }

  function StepsLeft(c: bv32, k: nat): bv32
    decreases k
  {
    if k == 0 then c else StepsLeft(StepLeft(c), k - 1)
  }

  lemma {:induction false} StepsMirrored(c: bv32, k: nat)
    ensures Swapped(StepsLeft(c, k)) == StepsRight(Swapped(c), k)
    decreases k
  {
    hide Swapped, StepLeft, StepRight;
    if k > 0 {
      StepMirrored(c);
      StepsMirrored(StepLeft(c), k - 1);
    }
  }

  /** Shifting is linear. */
  lemma {:induction false} StepsLinear(a: bv32, b: bv32, k: nat)
    ensures StepsRight(Xor(a, b), k) == Xor(StepsRight(a, k), StepsRight(b, k))
    decreases k
  {
    hide Xor, StepRight;
    if k > 0 {
      StepLinear(a, b);
      StepsLinear(StepRight(a), StepRight(b), k - 1);
    }
  }

  lemma StepLinear(a: bv32, b: bv32)
    ensures StepRight(Xor(a, b)) == Xor(StepRight(a), StepRight(b))
  {
    hide Xor, Half, Odd, REVERSED;
    XorHalves(a, b);
    XorLaws(Half(a), Half(b), REVERSED);
  }

  lemma XorHalves(a: bv32, b: bv32)
    ensures Odd(Xor(a, b)) == (Odd(a) != Odd(b)) && Half(Xor(a, b)) == Xor(Half(a), Half(b))
  {
  }

  lemma XorLaws(a: bv32, b: bv32, p: bv32)
    ensures Xor(Xor(a, p), b) == Xor(Xor(a, b), p) && Xor(a, Xor(b, p)) == Xor(Xor(a, b), p)
    ensures Xor(Xor(a, p), Xor(b, p)) == Xor(a, b)
  {
  }

  /** Shifting loses nothing. */
  lemma {:induction false} StepsInjective(a: bv32, b: bv32, k: nat)
    requires StepsRight(a, k) == StepsRight(b, k)
    ensures a == b
    decreases k
  {
    hide StepRight;
    if k > 0 {
      StepsInjective(StepRight(a), StepRight(b), k - 1);
      StepInjective(a, b);
    }
  }

  lemma StepInjective(a: bv32, b: bv32)
    requires StepRight(a) == StepRight(b)
    ensures a == b
  {
  }

  // ----- the table -----

  /** A byte shifted out of the register bit by bit. */
  function Entry(byte: bv32): bv32 { StepsRight(byte, 8) }

  function Raised(x: bv32): bv32 { x << 24 }

  /** Mirroring a byte and raising it is mirroring it as a word. */
  lemma ByteMirrored(byte: bv32)
    requires byte < 256
    ensures Swapped(Raised(Mirror(byte, 0x80))) == byte
  {
    hide Mirror, Part, Or, Half, Swapped, Raised, Sixteenth;
    TopParts();
    MirrorPart(byte, 0x80);
    MirrorPart(Sixteenth(byte), 8);
    MirrorDone(Sixteenth(Sixteenth(byte)), Part(Sixteenth(byte), 8));
    PartsAre(byte);
    PartsAre(Sixteenth(byte));
    ByteAssembled(byte);
    hide Up, Nibble;
  }

  lemma ByteAssembled(byte: bv32)
    requires byte < 256
    ensures Swapped(Raised(Or(Up(Nibble(byte), 4), Up(Nibble(Sixteenth(byte)), 0)))) == byte
  {
  }

  class Crc32 {
    var initialized: bool
    const table: array<bv32>

    constructor ()
      ensures !initialized && table.Length == 256 && fresh(table)
    {
      initialized := false;
      table := new bv32[256];
    }

    ghost predicate Valid()
      reads this, table
    {
      table.Length == 256 && (initialized ==> forall i: bv8 {:trigger i as int} :: table[i as int] == Entry(i as bv32))
    }

    /** Fills the table. */
    method InitializeCrc32()
      requires table.Length == 256
      modifies this, table
      ensures Valid() && initialized
    {
      hide *;
      for byte := 0 to 256
        invariant forall i: bv8 {:trigger i as int} :: i as int < byte ==> table[i as int] == Entry(i as bv32)
      {
        var crc := TableEntry(byte as bv8 as bv32);
        table[byte] := crc;
        SameByte(byte);
      }
      initialized := true;
      ValidIs();
    }

    lemma ValidIs()
      requires table.Length == 256 && forall i: bv8 {:trigger i as int} :: i as int < 256 ==>
        table[i as int] == Entry(i as bv32)
      ensures Valid()
    {
    }

    lemma SameByte(byte: int)
      requires 0 <= byte < 256
      ensures forall i: bv8 {:trigger i as int} :: i as int == byte ==> i == byte as bv8
    {
    }

    /** One entry: the mirrored byte is shifted left through the register, the result mirrored back. */
    static method TableEntry(byte: bv32) returns (entry: bv32)
      requires byte < 256
      ensures entry == Entry(byte)
    {
      hide *;
      var crc := ReflectCrc(byte, 8);
      BitValuesLow();
      crc := Raised(crc);
      ghost var start := crc;
      for offset := 0 to 8
        invariant StepsLeft(crc, 8 - offset) == StepsLeft(start, 8)
      {
        StepsNext(crc, 8 - offset);
        if TopSet(crc) {
          crc := Xor(Double(crc), POLYNOMIAL);
        } else {
          crc := Double(crc);
        }
      }
      StepsNone(crc);
      entry := ReflectCrc(crc, 32);
      WordMirrored(crc);
      MirroredSwapped(crc);
      StepsMirrored(start, 8);
      ByteMirrored(byte);
      EntryIs(byte);
    }
  }

  lemma BitValuesLow()
    ensures Bit(7) == 0x80 && Bit(31) == 0x8000_0000
  {
    BitValues();
  }

  lemma StepsNext(c: bv32, k: nat)
    requires k > 0
    ensures StepsLeft(c, k) == StepsLeft(if TopSet(c) then Xor(Double(c), POLYNOMIAL) else Double(c), k - 1)
  {
  }

  lemma StepsNone(c: bv32)
    ensures StepsLeft(c, 0) == c
  {
  }

  lemma EntryIs(byte: bv32)
    ensures Entry(byte) == StepsRight(byte, 8)
  {
  }

  // ----- the checksum -----

  /** One byte enters the register. */
  function Entered(c: bv32, byte: bv8): bv32 { StepsRight(Xor(c, Wide(byte)), 8) }

  function Wide(byte: bv8): bv32 { byte as bv32 }

  /** The register after a byte sequence. */
  function Fed(c: bv32, bytes: seq<bv8>): bv32
    decreases |bytes|
  {
    if bytes == [] then c else Fed(Entered(c, bytes[0]), bytes[1..])
  }

  /** The CRC-32 of section 8 of RFC 1952, bit by bit. */
  function Checksum(bytes: seq<bv8>): bv32 { Complement(Fed(0xFFFF_FFFF, bytes)) }

  function Complement(c: bv32): bv32 { !c }

  function Low(c: bv32): bv8 { (c & 0xFF) as bv8 }

  /** Which entry a byte looks up. */
  function Index(c: bv32, byte: bv8): bv8 { Low(c) ^ byte }

  function Eighth(c: bv32): bv32 { c >> 8 }

  function High(c: bv32): bv32 { c & 0xFFFF_FF00 }

  /** The register's high bytes only move down. */
  lemma HighSteps(c: bv32)
    ensures StepsRight(High(c), 8) == Eighth(c)
  {
    hide High, Half, Odd, Eighth, StepRight;
    HighHalves(c);
    var h := High(c);
    EvenStep(h);
    EvenStep(Half(h));
    EvenStep(Half(Half(h)));
    EvenStep(Half(Half(Half(h))));
    var k := Half(Half(Half(Half(h))));
    EvenStep(k);
    EvenStep(Half(k));
    EvenStep(Half(Half(k)));
    EvenStep(Half(Half(Half(k))));
    assert StepsRight(h, 8) == StepsRight(k, 4);
  }

  lemma EvenStep(c: bv32)
    ensures !Odd(c) ==> StepRight(c) == Half(c)
  {
  }

  lemma HighHalves(c: bv32)
    ensures var h := High(c);
      var k := Half(Half(Half(Half(h))));
      && !Odd(h) && !Odd(Half(h)) && !Odd(Half(Half(h))) && !Odd(Half(Half(Half(h))))
      && !Odd(k) && !Odd(Half(k)) && !Odd(Half(Half(k))) && !Odd(Half(Half(Half(k))))
      && Half(Half(Half(Half(k)))) == Eighth(c)
  {
    hide High, Half, Odd, Eighth, Sixteenth;
    var h := High(c);
    Halves(h);
    Halves(Sixteenth(h));
    HighNibbles(c);
    EvenNibble(h);
    EvenNibble(Sixteenth(h));
  }

  lemma HighNibbles(c: bv32)
    ensures High(c) & 0xF == 0 && Sixteenth(High(c)) & 0xF == 0 && Sixteenth(Sixteenth(High(c))) == Eighth(c)
  {
    HighNibblesPure(c);
  }

  lemma HighNibblesPure(c: bv32)
    ensures ((c & 0xFFFF_FF00) >> 4) & 0xF == 0 && (c & 0xFFFF_FF00) & 0xF == 0 && (c & 0xFFFF_FF00) >> 4 >> 4 == c >> 8
  {
  }

  lemma EvenNibble(h: bv32)
    requires h & 0xF == 0
    ensures !Odd(h) && !Odd(Half(h)) && !Odd(Half(Half(h))) && !Odd(Half(Half(Half(h))))
  {
    EvenNibblePure(h);
  }

  lemma EvenNibblePure(h: bv32)
    requires h & 0xF == 0
    ensures h & 1 != 1 && (h >> 1) & 1 != 1 && (h >> 1 >> 1) & 1 != 1 && (h >> 1 >> 1 >> 1) & 1 != 1
  {
  }

  lemma Split(c: bv32, byte: bv8)
    ensures Xor(c, Wide(byte)) == Xor(High(c), Wide(Index(c, byte)))
  {
    hide Xor, High, Wide, Low;
    HighLow(c);
    XorSwap(High(c), Wide(Low(c)), Wide(byte));
    WideXor(Low(c), byte);
  }

  lemma HighLow(c: bv32)
    ensures c == Xor(High(c), Wide(Low(c)))
  {
    HighLowPure(c);
  }

  lemma HighLowPure(c: bv32)
    ensures c == (c & 0xFFFF_FF00) ^ (((c & 0xFF) as bv8) as bv32)
  {
  }

  lemma WideXor(a: bv8, b: bv8)
    ensures Xor(Wide(a), Wide(b)) == Wide(a ^ b)
  {
  }

  /** The table step is eight steps of the register. */
  lemma TableStep(c: bv32, byte: bv8)
    ensures Entered(c, byte) == Xor(Eighth(c), Entry(Wide(Index(c, byte))))
  {
    hide Xor, High, Low, Eighth, StepsRight, Index, Wide;
    Split(c, byte);
    StepsLinear(High(c), Wide(Index(c, byte)), 8);
    HighSteps(c);
  }

  lemma {:induction false} FedTwice(c: bv32, a: seq<bv8>, b: seq<bv8>)
    ensures Fed(c, a + b) == Fed(Fed(c, a), b)
    decreases |a|
  {
    hide Entered;
    if a == [] {
      assert a + b == b;
    } else {
      assert (a + b)[0] == a[0] && (a + b)[1..] == a[1..] + b;
      FedTwice(Entered(c, a[0]), a[1..], b);
    }
  }

  function Concat(buffers: seq<seq<bv8>>): seq<bv8>
    decreases |buffers|
  {
    if buffers == [] then [] else buffers[0] + Concat(buffers[1..])
  }

  lemma ConcatNext(buffers: seq<seq<bv8>>, k: nat)
    requires k < |buffers|
    ensures Concat(buffers[k..]) == buffers[k] + Concat(buffers[k + 1..])
  {
    assert buffers[k..][1..] == buffers[k + 1..];
  }

  lemma FedOne(c: bv32, bytes: seq<bv8>, i: nat)
    requires i < |bytes|
    ensures Fed(c, bytes[i..]) == Fed(Entered(c, bytes[i]), bytes[i + 1..])
  {
    assert bytes[i..][1..] == bytes[i + 1..];
  }

  /** One byte through the table. */
  method LookUp(crc32: Crc32, crc: bv32, byte: bv8) returns (next: bv32)
    requires crc32.Valid() && crc32.initialized
    ensures next == Entered(crc, byte)
  {
    hide Xor, Eighth, Low, Entry, Entered, Index;
    TableStep(crc, byte);
    next := Xor(Eighth(crc), crc32.table[Index(crc, byte) as int]);
  }

  /** The checksum of some buffers, a table lookup per byte. */
  method ComputeCrc32(crc32: Crc32, buffers: seq<seq<bv8>>) returns (result: bv32)
    requires crc32.Valid()
    modifies crc32, crc32.table
    ensures crc32.Valid() && crc32.initialized
    ensures result == Checksum(Concat(buffers))
  {
    hide *;
    var crc: bv32 := 0xFFFF_FFFF;
    ghost var first := crc;
    if !crc32.initialized {
      TableSized(crc32);
      crc32.InitializeCrc32();
    }
    var k := 0;
    assert buffers[0..] == buffers;
    while k < |buffers|
      invariant k <= |buffers| && crc32.Valid() && crc32.initialized
      invariant Fed(crc, Concat(buffers[k..])) == Fed(first, Concat(buffers))
    {
      ConcatNext(buffers, k);
      FedTwice(crc, buffers[k], Concat(buffers[k + 1..]));
      var data, i := buffers[k], 0;
      ghost var start := crc;
      assert data[0..] == data;
      while i < |data|
        invariant i <= |data| && Fed(crc, data[i..]) == Fed(start, data)
        invariant crc32.Valid() && crc32.initialized
      {
        FedOne(crc, data, i);
        crc := LookUp(crc32, crc, data[i]);
        i := i + 1;
      }
      FedNothing(crc, data[i..]);
      k := k + 1;
    }
    FedNothing(crc, Concat(buffers[k..]));
    ConcatNothing(buffers[k..]);
    ChecksumIs(Concat(buffers));
    return Complement(crc);
  }

  lemma TableSized(crc32: Crc32)
    requires crc32.Valid()
    ensures crc32.table.Length == 256
  {
  }

  lemma ChecksumIs(bytes: seq<bv8>)
    ensures Checksum(bytes) == Complement(Fed(0xFFFF_FFFF, bytes))
  {
  }

  lemma FedNothing(c: bv32, bytes: seq<bv8>)
    ensures bytes == [] ==> Fed(c, bytes) == c
  {
  }

  lemma ConcatNothing(buffers: seq<seq<bv8>>)
    ensures buffers == [] ==> Concat(buffers) == []
  {
  }

  // ----- what it detects -----

  lemma {:induction false} FedInjective(c: bv32, d: bv32, bytes: seq<bv8>)
    requires Fed(c, bytes) == Fed(d, bytes)
    ensures c == d
    decreases |bytes|
  {
    hide Entered;
    if bytes != [] {
      FedInjective(Entered(c, bytes[0]), Entered(d, bytes[0]), bytes[1..]);
      EnteredInjective(c, d, bytes[0], bytes[0]);
    }
  }

  lemma EnteredInjective(c: bv32, d: bv32, x: bv8, y: bv8)
    ensures Entered(c, x) == Entered(d, y) ==> Xor(c, Wide(x)) == Xor(d, Wide(y))
    ensures Entered(c, x) == Entered(d, x) ==> c == d
  {
    hide Xor, StepsRight, Wide;
    if Entered(c, x) == Entered(d, y) {
      StepsInjective(Xor(c, Wide(x)), Xor(d, Wide(y)), 8);
    }
    if Entered(c, x) == Entered(d, x) {
      StepsInjective(Xor(c, Wide(x)), Xor(d, Wide(x)), 8);
      XorCancels(c, d, Wide(x));
    }
  }

  lemma XorCancels(a: bv32, b: bv32, p: bv32)
    requires Xor(a, p) == Xor(b, p)
    ensures a == b
  {
  }

  function Raise8(w: bv32): bv32 { w << 8 }

  /** Up to four bytes as a word, the first byte lowest. */
  function WordOf(bytes: seq<bv8>): bv32
    requires |bytes| <= 4
    decreases |bytes|
  {
    if bytes == [] then 0 else Xor(Wide(bytes[0]), Raise8(WordOf(bytes[1..])))
  }

  predicate Below24(w: bv32) { w & 0xFF00_0000 == 0 }

  lemma {:induction false} WordSmall(bytes: seq<bv8>)
    requires |bytes| <= 3
    ensures Below24(WordOf(bytes))
    ensures |bytes| <= 2 ==> WordOf(bytes) & 0xFFFF_0000 == 0
    ensures |bytes| <= 1 ==> WordOf(bytes) & 0xFFFF_FF00 == 0
    decreases |bytes|
  {
    if bytes != [] {
      hide Xor, Raise8, Below24, Wide;
      WordSmall(bytes[1..]);
      EmptyWord(bytes[1..]);
      Raised8(bytes[0], WordOf(bytes[1..]));
    } else {
      hide WordOf;
      EmptyWord(bytes);
    }
  }

  lemma EmptyWord(bytes: seq<bv8>)
    ensures bytes == [] ==> WordOf(bytes) == 0
  {
  }

  lemma Raised8(byte: bv8, w: bv32)
    ensures w & 0xFFFF_0000 == 0 ==> Below24(Xor(Wide(byte), Raise8(w)))
    ensures w & 0xFFFF_FF00 == 0 ==> Xor(Wide(byte), Raise8(w)) & 0xFFFF_0000 == 0
    ensures w == 0 ==> Xor(Wide(byte), Raise8(w)) & 0xFFFF_FF00 == 0
  {
    Raised8Pure(byte, w);
  }

  lemma Raised8Pure(byte: bv8, w: bv32)
    ensures w & 0xFFFF_0000 == 0 ==> ((byte as bv32) ^ (w << 8)) & 0xFF00_0000 == 0
    ensures w & 0xFFFF_FF00 == 0 ==> ((byte as bv32) ^ (w << 8)) & 0xFFFF_0000 == 0
    ensures w == 0 ==> ((byte as bv32) ^ (w << 8)) & 0xFFFF_FF00 == 0
  {
  }

  lemma StepsMore(c: bv32, j: nat, k: nat)
    ensures StepsRight(c, j + k) == StepsRight(StepsRight(c, j), k)
    decreases j
  {
    hide StepRight;
    if j > 0 {
      StepsMore(StepRight(c), j - 1, k);
    }
  }

  lemma RaisedSteps(w: bv32)
    requires Below24(w)
    ensures StepsRight(Raise8(w), 8) == w
  {
    hide StepsRight, Raise8, Below24, High, Eighth;
    HighSteps(Raise8(w));
    RaisedHigh(w);
  }

  lemma RaisedHigh(w: bv32)
    requires Below24(w)
    ensures High(Raise8(w)) == Raise8(w) && Eighth(Raise8(w)) == w
  {
    RaisedPure(w);
  }

  lemma RaisedPure(w: bv32)
    requires w & 0xFF00_0000 == 0
    ensures (w << 8) & 0xFFFF_FF00 == w << 8 && (w << 8) >> 8 == w
  {
  }

  lemma XorSwap(a: bv32, b: bv32, c: bv32)
    ensures Xor(Xor(a, b), c) == Xor(a, Xor(b, c)) && Xor(a, 0) == a
  {
  }

  /** Up to four bytes enter the register as one word. */
  lemma {:induction false} FedWord(c: bv32, bytes: seq<bv8>)
    requires |bytes| <= 4
    ensures Fed(c, bytes) == StepsRight(Xor(c, WordOf(bytes)), 8 * |bytes|)
    decreases |bytes|
  {
    hide Xor, StepsRight, Raise8, Wide;
    XorSwap(c, 0, 0);
    if bytes == [] {
      NoSteps(c);
    } else {
      var b, w := Wide(bytes[0]), WordOf(bytes[1..]);
      FedWord(Entered(c, bytes[0]), bytes[1..]);
      WordSmall(bytes[1..]);
      RaisedSteps(w);
      StepsLinear(Xor(c, b), Raise8(w), 8);
      XorSwap(c, b, Raise8(w));
      StepsMore(Xor(c, Xor(b, Raise8(w))), 8, 8 * (|bytes| - 1));
    }
  }

  lemma NoSteps(c: bv32)
    ensures StepsRight(c, 0) == c
  {
  }

  lemma {:induction false} WordInjective(x: seq<bv8>, y: seq<bv8>)
    requires |x| == |y| <= 4 && WordOf(x) == WordOf(y)
    ensures x == y
    decreases |x|
  {
    if x != [] {
      hide Xor, Raise8, Below24, WordOf, Low, Eighth, Wide;
      WordFirst(x);
      WordFirst(y);
      WordSmall(x[1..]);
      WordSmall(y[1..]);
      Unraised(x[0], WordOf(x[1..]));
      Unraised(y[0], WordOf(y[1..]));
      WordInjective(x[1..], y[1..]);
      assert x == [x[0]] + x[1..] && y == [y[0]] + y[1..];
    }
  }

  lemma WordFirst(bytes: seq<bv8>)
    requires 0 < |bytes| <= 4
    ensures WordOf(bytes) == Xor(Wide(bytes[0]), Raise8(WordOf(bytes[1..])))
  {
  }

  /** The lowest byte and the rest of a word. */
  lemma Unraised(a: bv8, v: bv32)
    requires Below24(v)
    ensures Low(Xor(Wide(a), Raise8(v))) == a && Eighth(Xor(Wide(a), Raise8(v))) == v
  {
    UnraisedPure(a, v);
  }

  lemma UnraisedPure(a: bv8, v: bv32)
    requires v & 0xFF00_0000 == 0
    ensures (((a as bv32) ^ (v << 8)) & 0xFF) as bv8 == a && ((a as bv32) ^ (v << 8)) >> 8 == v
  {
  }

  /** Any change confined to four consecutive bytes changes the checksum. */
  lemma BurstDetected(a: seq<bv8>, x: seq<bv8>, y: seq<bv8>, b: seq<bv8>)
    requires |x| == |y| <= 4 && x != y
    ensures Checksum(a + x + b) != Checksum(a + y + b)
  {
    hide Fed, Complement, WordOf, StepsRight, Xor;
    var c := Fed(0xFFFF_FFFF, a);
    FedTwice(0xFFFF_FFFF, a + x, b);
    FedTwice(0xFFFF_FFFF, a + y, b);
    FedTwice(0xFFFF_FFFF, a, x);
    FedTwice(0xFFFF_FFFF, a, y);
    FedWord(c, x);
    FedWord(c, y);
    if Checksum(a + x + b) == Checksum(a + y + b) {
      ComplementInjective(Fed(Fed(c, x), b), Fed(Fed(c, y), b));
      FedInjective(Fed(c, x), Fed(c, y), b);
      StepsInjective(Xor(c, WordOf(x)), Xor(c, WordOf(y)), 8 * |x|);
      XorCancelsLeft(c, WordOf(x), WordOf(y));
      WordInjective(x, y);
    }
  }

  lemma ComplementInjective(a: bv32, b: bv32)
    requires Complement(a) == Complement(b)
    ensures a == b
  {
  }

  lemma XorCancelsLeft(p: bv32, a: bv32, b: bv32)
    requires Xor(p, a) == Xor(p, b)
    ensures a == b
  {
  }
}
