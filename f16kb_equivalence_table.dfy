/**
 * The microcode patch equivalence table of AMD family 16h models 00h-0Fh
 * (Kabini), from
 * src/vendorcode/amd/agesa/f16kb/Proc/CPU/Family/0x16/KB/F16KbEquivalenceTable.c.
 *
 * The table lists (installed processor ID, equivalence ID) pairs as a flat
 * array of 16-bit words.  The family service hands it out only when bit 12
 * of the MSR at 0xC0011029 is set; otherwise it writes neither of its two
 * out-parameters.  The MSR read is a parameter here: the value read is
 * `msrDeCfg`.
 */
module F16KbEquivalenceTable {
  /** `UINT8`: the type of the element count. */
  type UInt8 = x: int | 0 <= x < 0x100

  datatype Option<T> = None | Some(value: T)

  /** `BIT12` as a mask on the 64-bit MSR value. */
  const BIT12: bv64 := 0x1000

  /** `stu1`: two (installed ID, equivalence ID) pairs, laid out flat. */
  const STU1: seq<bv16> := [0x7001, 0x7001, 0x7000, 0x7000]

  /**
   * The number of pairs in a flat table, as the source computes it: the
   * number of 16-bit entries divided by 2.
   */
  function PairCount(table: seq<bv16>): (n: nat)
    ensures |table| % 2 == 0 ==> n * 2 == |table|
    ensures n * 2 <= |table|
  {
    |table| / 2
  }

  /** The table read as pairs: pair `k` is entries `2*k` and `2*k+1`. */
  function Pairs(table: seq<bv16>): (pairs: seq<(bv16, bv16)>)
    ensures |pairs| == PairCount(table)
    ensures forall k :: 0 <= k < |pairs| ==> 2 * k + 1 < |table| && pairs[k] == (table[2 * k], table[2 * k + 1])
  {
    seq(PairCount(table), k requires 0 <= k < PairCount(table) => (table[2 * k], table[2 * k + 1]))
  }

  /** `stu1` holds exactly the pairs (0x7001, 0x7001) and (0x7000, 0x7000), and its count fits a `UINT8`. */
  lemma Stu1Pairs()
    ensures PairCount(STU1) == 2 && PairCount(STU1) < 0x100
    ensures Pairs(STU1) == [(0x7001, 0x7001), (0x7000, 0x7000)]
  {
    var pairs := Pairs(STU1);
    assert pairs[0] == (STU1[0], STU1[1]);
    assert pairs[1] == (STU1[2], STU1[3]);
  }

  /**
   * A consumer that walks `count` pairs of `stu1` by indices `2*k` and
   * `2*k+1` stays inside the table: the count times 2 is its length.
   */
  lemma {:induction false} Stu1CountCoversTable(k: nat)
    requires k < PairCount(STU1)
    ensures PairCount(STU1) * 2 == |STU1|
    ensures 2 * k + 1 < |STU1|
  {
    Stu1Pairs();
  }

  /** Whether the MSR value enables the equivalence table. */
  predicate TableEnabled(msrDeCfg: bv64) {
    msrDeCfg & BIT12 != 0
  }

  /**
   * The caller's two out-slots, `*KbEquivalenceTablePtr` (`None` is a
   * pointer that designates no table) and `*NumberOfElements`.
   */
  class EquivalenceTableRequest {
    var tablePtr: Option<seq<bv16>>
    var numberOfElements: UInt8
  }

  /**
   * What the selector reports for an MSR value: the table and its pair count
   * when bit 12 is set, nothing when it is clear.
   */
  function SelectedTable(msrDeCfg: bv64): (r: Option<(seq<bv16>, UInt8)>)
    ensures r.Some? <==> TableEnabled(msrDeCfg)
    ensures r.Some? ==> r.value.1 * 2 == |r.value.0| && Pairs(r.value.0) == Pairs(STU1)
  {
    Stu1Pairs();
    if msrDeCfg & BIT12 == 0 then None else Some((STU1, PairCount(STU1)))
  }

  /** The selection depends on bit 12 alone: two MSR values that agree on it select the same. */
  lemma SelectionDependsOnlyOnBit12(msr1: bv64, msr2: bv64)
    requires msr1 & BIT12 == msr2 & BIT12
    ensures SelectedTable(msr1) == SelectedTable(msr2)
  {
  }

  /**
   * `GetF16KbMicrocodeEquivalenceTable`: with bit 12 of the MSR value clear
   * neither out-slot is written; with it set the count is 2 and the pointer
   * designates `stu1`.
   */
  method GetF16KbMicrocodeEquivalenceTable(msrDeCfg: bv64, request: EquivalenceTableRequest)
    modifies request`tablePtr, request`numberOfElements
    ensures !TableEnabled(msrDeCfg) ==> request.tablePtr == old(request.tablePtr)
                                        && request.numberOfElements == old(request.numberOfElements)
    ensures TableEnabled(msrDeCfg) ==> && request.numberOfElements == 2
                                       && request.tablePtr == Some(STU1)
                                       && Some((request.tablePtr.value, request.numberOfElements))
                                          == SelectedTable(msrDeCfg)
  {
    if msrDeCfg & BIT12 == 0 {
    } else {
      Stu1Pairs();
      request.numberOfElements := PairCount(STU1);
      request.tablePtr := Some(STU1);
    }
  }
}
