/**
 * PCI Express clock-source normalisation of
 * src/soc/intel/cannonlake/fsp_params.c: in the chip configuration a zero
 * `PcieClkSrcUsage` entry means "not configured", while the FSP expects
 * `PCIE_CLK_NOTUSED` for a clock nobody uses.  The mapper rewrites the
 * configuration array in place before copying it into the UPD block.
 */
module CnlPcieClk {
  import opened CnlTypes

  /**
   * `PCIE_CLK_NOTUSED`.  The header defining it is not part of this model;
   * every proof here uses only that it is not zero.
   */
  const PCIE_CLK_NOTUSED: UInt8 := 0xFF

  /** One entry after normalisation. */
  function NormalizedClkSrc(usage: UInt8): (r: UInt8)
    ensures r != 0
    ensures usage != 0 ==> r == usage
  {
    if usage == 0 then PCIE_CLK_NOTUSED else usage
  }

  /**
   * The whole clock-source table after normalisation, entry by entry from
   * the front: no entry is zero, every non-zero entry is kept and every zero
   * entry has become `PCIE_CLK_NOTUSED`.
   */
  function NormalizedClkSrcUsage(s: seq<UInt8>): (r: seq<UInt8>)
    ensures |r| == |s|
    ensures forall k :: 0 <= k < |s| ==> r[k] != 0
    ensures forall k :: 0 <= k < |s| && s[k] != 0 ==> r[k] == s[k]
    ensures forall k :: 0 <= k < |s| && s[k] == 0 ==> r[k] == PCIE_CLK_NOTUSED
  {
    if s == [] then [] else [NormalizedClkSrc(s[0])] + NormalizedClkSrcUsage(s[1..])
  }

  /** Normalisation acts on each entry alone. */
  lemma {:induction false} NormalizedClkSrcUsageAt(s: seq<UInt8>, k: nat)
    requires k < |s|
    ensures NormalizedClkSrcUsage(s)[k] == NormalizedClkSrc(s[k])
  {
    if k > 0 {
      NormalizedClkSrcUsageAt(s[1..], k - 1);
    }
  }

  /**
   * After normalisation no entry is zero, every non-zero entry is kept and
   * every zero entry has become `PCIE_CLK_NOTUSED`.
   */
  lemma NormalizedClkSrcUsageSpec(s: seq<UInt8>)
    ensures forall k :: 0 <= k < |s| ==> NormalizedClkSrcUsage(s)[k] != 0
    ensures forall k :: 0 <= k < |s| && s[k] != 0 ==> NormalizedClkSrcUsage(s)[k] == s[k]
    ensures forall k :: 0 <= k < |s| && s[k] == 0 ==> NormalizedClkSrcUsage(s)[k] == PCIE_CLK_NOTUSED
  {
    forall k | 0 <= k < |s|
      ensures NormalizedClkSrcUsage(s)[k] == NormalizedClkSrc(s[k])
    {
      NormalizedClkSrcUsageAt(s, k);
    }
  }

  /** A table is left alone by normalisation exactly when it has no zero entry. */
  lemma {:induction false} NormalizedClkSrcUsageFixedPoints(s: seq<UInt8>)
    ensures NormalizedClkSrcUsage(s) == s <==> forall k :: 0 <= k < |s| ==> s[k] != 0
  {
    if s != [] {
      NormalizedClkSrcUsageFixedPoints(s[1..]);
      assert forall k :: 1 <= k < |s| ==> s[k] == s[1..][k - 1];
      if NormalizedClkSrcUsage(s) == s {
        assert NormalizedClkSrcUsage(s)[0] == s[0];
        assert NormalizedClkSrcUsage(s)[1..] == s[1..];
      }
    }
  }

  /** Normalising twice is normalising once. */
  lemma NormalizedClkSrcUsageIdempotent(s: seq<UInt8>)
    ensures NormalizedClkSrcUsage(NormalizedClkSrcUsage(s)) == NormalizedClkSrcUsage(s)
  {
    NormalizedClkSrcUsageSpec(s);
    NormalizedClkSrcUsageFixedPoints(NormalizedClkSrcUsage(s));
  }

  /**
   * The loop over `config->PcieClkSrcUsage`: each zero entry is replaced by
   * `PCIE_CLK_NOTUSED` in place, every other entry is left as it was.
   */
  method NormalizePcieClkSrcUsage(usage: array<UInt8>)
    modifies usage
    ensures usage[..] == NormalizedClkSrcUsage(old(usage[..]))
  {
    for i := 0 to usage.Length
      invariant forall k :: 0 <= k < i ==> usage[k] == NormalizedClkSrc(old(usage[k]))
      invariant forall k :: i <= k < usage.Length ==> usage[k] == old(usage[k])
    {
      if usage[i] == 0 {
        usage[i] := PCIE_CLK_NOTUSED;
      }
    }
    ghost var was := old(usage[..]);
    NormalizedClkSrcUsageSpec(was);
    forall k | 0 <= k < usage.Length
      ensures usage[..][k] == NormalizedClkSrcUsage(was)[k]
    {
      NormalizedClkSrcUsageAt(was, k);
    }
  }
}
