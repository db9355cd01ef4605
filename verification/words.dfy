// Bit-level helpers on 64-bit words shared by the packed path and the wall
// bitmap.
module Words {
  // The bit index k as a 64-bit word, built by counting so that its value is
  // provable without an integer-to-bit-vector conversion.
  function Bv(k: nat): bv64
    requires k < 64
  {
    if k == 0 then 0 else Bv(k - 1) + 1
  }

  lemma {:induction false} BvInt(k: nat)
    requires k < 64
    ensures Bv(k) as int == k
  {
    if k > 0 {
      BvInt(k - 1);
      IncSmall(Bv(k - 1));
    }
  }

  lemma IncSmall(b: bv64)
    requires b < 64
    ensures (b + 1) as int == b as int + 1
  {
  }

  // A bit number 0 to 63 as a 64-bit word.
  function BitNo(k: nat): (b: bv64)
    requires k < 64
    ensures b < 64
  {
    BvInt(k);
    Bv(k)
  }

  lemma BvInjective(j: nat, k: nat)
    requires j < 64 && k < 64
    ensures Bv(j) == Bv(k) <==> j == k
  {
    BvInt(j);
    BvInt(k);
  }

  // `w & (1 << k) != 0`
  predicate BitSet(w: bv64, k: bv64)
    requires k < 64
  {
    w & (1 << k) != 0
  }

  // `w | (1 << k)`
  function WithBit(w: bv64, k: bv64): bv64
    requires k < 64
  {
    w | (1 << k)
  }

  // `w & !(1 << k)`
  function WithoutBit(w: bv64, k: bv64): bv64
    requires k < 64
  {
    w & !(1 << k)
  }

  lemma SetLeavesOtherMasks(w: bv64, k: bv64, j: bv64)
    requires k < 64 && j < 64 && j != k
    ensures WithBit(w, k) & (1 << j) == w & (1 << j)
  {
  }

  lemma ClearLeavesOtherMasks(w: bv64, k: bv64, j: bv64)
    requires k < 64 && j < 64 && j != k
    ensures WithoutBit(w, k) & (1 << j) == w & (1 << j)
  {
  }

  // Two words that agree under the mask of bit j agree on bit j.
  lemma SameMaskedBit(x: bv64, y: bv64, j: bv64)
    requires j < 64 && x & (1 << j) == y & (1 << j)
    ensures BitSet(x, j) == BitSet(y, j)
  {
  }

  lemma SetLeavesOtherBits(w: bv64, k: bv64, j: bv64)
    requires k < 64 && j < 64 && j != k
    ensures BitSet(WithBit(w, k), j) == BitSet(w, j)
  {
    SetLeavesOtherMasks(w, k, j);
    SameMaskedBit(WithBit(w, k), w, j);
  }

  lemma ClearLeavesOtherBits(w: bv64, k: bv64, j: bv64)
    requires k < 64 && j < 64 && j != k
    ensures BitSet(WithoutBit(w, k), j) == BitSet(w, j)
  {
    ClearLeavesOtherMasks(w, k, j);
    SameMaskedBit(WithoutBit(w, k), w, j);
  }

  lemma SetBitIsSet(w: bv64, k: bv64)
    requires k < 64
    ensures BitSet(WithBit(w, k), k)
  {
  }

  lemma ClearBitIsClear(w: bv64, k: bv64)
    requires k < 64
    ensures !BitSet(WithoutBit(w, k), k)
  {
  }

  lemma ZeroWord(k: bv64)
    requires k < 64
    ensures !BitSet(0, k)
  {
  }
}
