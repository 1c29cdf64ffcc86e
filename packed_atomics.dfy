/**
 * Packed narrow-type accumulation: a 32-bit word viewed as 2 bf16 lanes or 4 fp8/bf8 lanes, the
 * lane-wise add of two packed values (add, add_bf16x2_t, add_fp8x4_t, add_bf8x4_t), and the
 * compare-and-swap retry loop (the atomic_add specializations for bf16x2_t and fp8x4_t) that
 * adds a packed value into one word of memory.
 *
 * Lanes hold raw bit patterns. The narrow-float arithmetic is abstract: a Conversion supplies the
 * widening to the compute type, its addition, and the narrowing back to a lane bit pattern.
 */
module PackedAtomics {
  import Arith
  import opened Outcomes

  const WordModulus: int := 0x1_0000_0000

  /** The contents of one 32-bit memory word, as an unsigned number. */
  type Word = x: int | 0 <= x < 0x1_0000_0000

  /** How a word is split into lanes: two bf16, four fp8 or four bf8. */
  datatype Packing = Bf16x2 | Fp8x4 | Bf8x4

  function Lanes(k: Packing): nat {
    if k == Bf16x2 then 2 else 4
  }

  /** One more than the largest bit pattern of a lane: 2^16 for bf16, 2^8 for fp8 and bf8. */
  function LaneBase(k: Packing): nat {
    if k == Bf16x2 then 0x1_0000 else 0x100
  }

  function Pow(b: nat, n: nat): nat {
    if n == 0 then 1 else b * Pow(b, n - 1)
  }

  lemma LanesFillWord(k: Packing)
    ensures Pow(LaneBase(k), Lanes(k)) == WordModulus
  {
    if k == Bf16x2 {
      assert Pow(0x1_0000, 2) == 0x1_0000 * Pow(0x1_0000, 1);
    } else {
      assert Pow(0x100, 4) == 0x100 * Pow(0x100, 3);
      assert Pow(0x100, 3) == 0x100 * Pow(0x100, 2);
    }
  }

  predicate LanesFit(base: nat, v: seq<int>) {
    forall i :: 0 <= i < |v| ==> 0 <= v[i] < base
  }

  /** The word whose lanes, from the least significant one, are v (the union view of the source). */
  function Pack(base: nat, v: seq<int>): int {
    if |v| == 0 then 0 else v[0] + base * Pack(base, v[1..])
  }

  /** The n lanes of w, least significant first. */
  function Unpack(base: nat, n: nat, w: int): (v: seq<int>)
    requires base > 0
    ensures |v| == n
  {
    if n == 0 then [] else [w % base] + Unpack(base, n - 1, w / base)
  }

  /** One more lane below base in front of a value below p gives a value below base * p. */
  lemma LaneStep(base: nat, lane: int, rest: int, p: int)
    requires 0 <= lane < base && 0 <= rest < p
    ensures 0 <= lane + base * rest < base * p
  {
    Arith.MulMonotone(base, 0, rest);
    Arith.MulMonotone(base, rest, p - 1);
    assert base * (p - 1) == base * p - base;
  }

  lemma {:induction false} PackBound(base: nat, v: seq<int>)
    requires base > 0 && LanesFit(base, v)
    ensures 0 <= Pack(base, v) < Pow(base, |v|)
  {
    if |v| > 0 {
      PackBound(base, v[1..]);
      LaneStep(base, v[0], Pack(base, v[1..]), Pow(base, |v| - 1));
    }
  }

  /** Unpacking a packed value gives its lanes back. */
  lemma {:induction false} UnpackPack(base: nat, v: seq<int>)
    requires base > 0 && LanesFit(base, v)
    ensures Unpack(base, |v|, Pack(base, v)) == v
  {
    if |v| > 0 {
      PackBound(base, v[1..]);
      Arith.DivModUnique(Pack(base, v), Pack(base, v[1..]), v[0], base);
      UnpackPack(base, v[1..]);
      assert v == [v[0]] + v[1..];
    }
  }

  /** Packing the lanes of a word gives the word back, and the lanes fit. */
  lemma {:induction false} PackUnpack(base: nat, n: nat, w: int)
    requires base > 0 && 0 <= w < Pow(base, n)
    ensures LanesFit(base, Unpack(base, n, w))
    ensures Pack(base, Unpack(base, n, w)) == w
  {
    if n > 0 {
      var q, p := w / base, Pow(base, n - 1);
      assert w == base * q + w % base;
      assert Pow(base, n) == base * p;
      assert q < p by {
        if p <= q {
          Arith.MulMonotone(base, p, q);
        }
      }
      PackUnpack(base, n - 1, q);
      assert Unpack(base, n, w)[1..] == Unpack(base, n - 1, q);
    }
  }

  /**
   * The arithmetic of add<T, ComputeType>: type_convert to the compute type C, add there, and
   * type_convert back to a lane bit pattern of T.
   */
  datatype Conversion<!C> = Conversion(widen: int -> C, plus: (C, C) -> C, narrow: C -> int)

  /** type_convert back to T always yields a bit pattern of T. */
  ghost predicate Narrows<C(!new)>(conv: Conversion<C>, k: Packing) {
    forall c :: 0 <= conv.narrow(c) < LaneBase(k)
  }

  /** add<T, ComputeType>(a, b) on lane bit patterns. */
  function Add<C>(conv: Conversion<C>, a: int, b: int): int {
    conv.narrow(conv.plus(conv.widen(a), conv.widen(b)))
  }

  /** add_bf16x2_t, add_fp8x4_t and add_bf8x4_t: add applied lane by lane. */
  function AddLanes<C>(k: Packing, conv: Conversion<C>, a: seq<int>, b: seq<int>): seq<int>
    requires |a| == |b| == Lanes(k)
  {
    seq(Lanes(k), i requires 0 <= i < Lanes(k) => Add(conv, a[i], b[i]))
  }

  /**
   * The packed add is lane-wise: each result lane is add of the two inputs' lanes at the same
   * position and depends on nothing else, and every result lane is a bit pattern of the lane type.
   */
  lemma AddLanesIndependent<C(!new)>(k: Packing, conv: Conversion<C>, a: seq<int>, b: seq<int>, a': seq<int>, b': seq<int>, i: int)
    requires |a| == |b| == |a'| == |b'| == Lanes(k) && 0 <= i < Lanes(k)
    requires a[i] == a'[i] && b[i] == b'[i]
    ensures AddLanes(k, conv, a, b)[i] == AddLanes(k, conv, a', b')[i]
    ensures |AddLanes(k, conv, a, b)| == Lanes(k)
    ensures Narrows(conv, k) ==> LanesFit(LaneBase(k), AddLanes(k, conv, a, b))
  {
  }

  /** The word the CAS loop tries to install: the current word's lanes plus x's lanes, packed. */
  function Combine<C(!new)>(k: Packing, conv: Conversion<C>, w: Word, x: seq<int>): Word
    requires |x| == Lanes(k) && Narrows(conv, k)
  {
    var v := AddLanes(k, conv, Unpack(LaneBase(k), Lanes(k), w), x);
    PackBound(LaneBase(k), v);
    LanesFillWord(k);
    Pack(LaneBase(k), v)
  }

  /** Lane i of the combined word is add of lane i of the current word and lane i of x. */
  lemma CombineLanes<C(!new)>(k: Packing, conv: Conversion<C>, w: Word, x: seq<int>)
    requires |x| == Lanes(k) && Narrows(conv, k)
    ensures var v := Unpack(LaneBase(k), Lanes(k), Combine(k, conv, w, x));
      forall i :: 0 <= i < Lanes(k) ==> v[i] == Add(conv, Unpack(LaneBase(k), Lanes(k), w)[i], x[i])
  {
    UnpackPack(LaneBase(k), AddLanes(k, conv, Unpack(LaneBase(k), Lanes(k), w), x));
  }

  // ---------------------------------------------------------------- compare-and-swap

  /**
   * atomicCAS: returns the word at dst; stores value there exactly when that word equals compare;
   * no other word changes.
   */
  method AtomicCas(mem: array<Word>, dst: int, compare: Word, value: Word) returns (observed: Word)
    requires 0 <= dst < mem.Length
    modifies mem
    ensures observed == old(mem[dst])
    ensures mem[dst] == if observed == compare then value else observed
    ensures forall i :: 0 <= i < mem.Length && i != dst ==> mem[i] == old(mem[i])
  {
    observed := mem[dst];
    if observed == compare {
      mem[dst] := value;
    }
  }



  /**
   * The word at dst after a prefix of the writes by other threads: each entry is Some(w) for a
   * write of w, or None for no write; the last write wins.
   */
  function Settle(initial: Word, writes: seq<Option<Word>>): (w: Word)
    ensures (forall j :: 0 <= j < |writes| ==> writes[j].None?) ==> w == initial
  {
    if |writes| == 0 then initial
    else match writes[|writes| - 1]
      case Some(v) => v
      case None => Settle(initial, writes[..|writes| - 1])
  }

  function Min(a: int, b: int): int {
    if a <= b then a else b
  }

  /** The packings with an atomic_add specialization: bf16x2_t and fp8x4_t. */
  predicate HasCasLoop(k: Packing) {
    k == Bf16x2 || k == Fp8x4
  }

  /**
   * atomic_add<bf16x2_t> and atomic_add<fp8x4_t>: read the word at dst once, then repeatedly
   * compute the packed sum of the value last seen and x and try to install it with atomicCAS,
   * retrying with the freshly observed word until the CAS returns the value it was given.
   *
   * Writes by other threads are a parameter: interference[j] is what happens to the word just
   * before CAS attempt j (attempts counted from 0), and nothing happens after the last entry.
   * On exit the word holds Combine of the value the successful CAS saw and x; that value is the
   * word as left by the writes before that attempt; no other word changes; and without any
   * interfering write the loop makes exactly one attempt and adds to the original word.
   */
  method AtomicAddPacked<C(!new)>(mem: array<Word>, dst: int, k: Packing, conv: Conversion<C>, x: seq<int>,
                            interference: seq<Option<Word>>)
    returns (attempts: nat, observed: Word)
    requires 0 <= dst < mem.Length
    requires HasCasLoop(k) && |x| == Lanes(k) && Narrows(conv, k)
    modifies mem
    ensures 1 <= attempts <= |interference| + 1
    ensures observed == Settle(old(mem[dst]), interference[..Min(attempts, |interference|)])
    ensures mem[dst] == Combine(k, conv, observed, x)
    ensures forall i :: 0 <= i < mem.Length && i != dst ==> mem[i] == old(mem[i])
    ensures (forall j :: 0 <= j < |interference| ==> interference[j].None?) ==>
              attempts == 1 && observed == old(mem[dst])
  {
    var cur := mem[dst];
    attempts := 0;
    while true
      invariant attempts <= |interference|
      invariant cur == mem[dst] == Settle(old(mem[dst]), interference[..attempts])
      invariant forall i :: 0 <= i < mem.Length && i != dst ==> mem[i] == old(mem[i])
      invariant (forall j :: 0 <= j < |interference| ==> interference[j].None?) ==> attempts == 0
      decreases |interference| - attempts
    {
      var oldV := cur;
      var newV := Combine(k, conv, oldV, x);
      if attempts < |interference| && interference[attempts].Some? {
        mem[dst] := interference[attempts].value;
      }
      assert attempts < |interference| ==> interference[..attempts + 1][..attempts] == interference[..attempts];
      cur := AtomicCas(mem, dst, oldV, newV);
      attempts := attempts + 1;
      if cur == oldV {
        observed := oldV;
        return;
      }
    }
  }
}
