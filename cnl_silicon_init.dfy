/**
 * `platform_fsp_silicon_init_params_cb` of src/soc/intel/cannonlake/fsp_params.c:
 * fills the silicon-init UPD blocks from the chip configuration and the
 * device tree.  The recurring rules are
 *   - an absent device gets enable field 0, a present one its `enabled` flag;
 *   - a sparse override writes a UPD field only when the configured value is
 *     non-zero and otherwise keeps the value already there;
 *   - the USB over-current pins are cleared before the mainboard hook and the
 *     pins of the configuration's port arrays are written after it;
 *   - the PCIe clock-source table is normalised in place, then copied.
 *
 * Each section of the source is a function giving the part of the UPD
 * record it writes, and a method that performs the section's stores on the
 * `FspsUpd` object, proved to leave exactly that function's result.  The
 * callback is proved to leave `SiliconInitConfig`; the properties the mapper
 * promises are lemmas about it.  `SiliconInitConfig` is split at the
 * mainboard hook, so that the rules applied after the hook are proved for
 * any record a board's hook may leave behind.
 */
module CnlSiliconInit {
  import opened CnlTypes
  import opened CnlSerialIo
  import opened CnlPcieClk

  /**
   * The sparse-override rule: the configured value when it is non-zero,
   * otherwise the value already in the UPD field.  A zero never clobbers a
   * non-zero default.
   */
  function SparseOverride(prior: UInt8, configured: UInt8): (r: UInt8)
    ensures configured == 0 ==> r == prior
    ensures configured != 0 ==> r == configured
    ensures r == 0 <==> prior == 0 && configured == 0
  {
    if configured != 0 then configured else prior
  }

  /**
   * `psys_pmax * 8` stored into the 16-bit `PsysPmax` UPD: watts to 1/8 W
   * units, truncated to the field's width.
   */
  function PsysPmaxUnits(watts: UInt16): (units: UInt16)
    ensures watts < 0x2000 ==> units == watts * 8
  {
    (watts * 8) % 0x1_0000
  }

  /**
   * `tcc_offset` (32 bits in the chip configuration) stored into the 8-bit
   * `TccActivationOffset` UPD: the low byte is kept.
   */
  function TccOffsetByte(offset: UInt32): (r: UInt8)
    ensures offset < 0x100 ==> r == offset
    ensures (offset - r) % 0x100 == 0
  {
    offset % 0x100
  }

  /** Every power that fits the field converts back: 1/8 W units divided by 8 are the configured watts. */
  lemma PsysPmaxUnitsRoundTrip(watts: UInt16)
    requires watts < 0x2000
    ensures PsysPmaxUnits(watts) % 8 == 0
    ensures PsysPmaxUnits(watts) / 8 == watts
  {
  }

  /**
   * The device tree after the xDCI step: when the controller may not be
   * enabled (`xdci_can_enable()` is false) its `enabled` flag is cleared.
   */
  function XdciGate(devices: map<DevFn, bool>, xdciCanEnable: bool): (gated: map<DevFn, bool>)
    ensures gated.Keys == devices.Keys
    ensures forall d :: d in devices && d != UsbOtg ==> gated[d] == devices[d]
  {
    if UsbOtg in devices && !xdciCanEnable then devices[UsbOtg := false] else devices
  }

  /** `XdciEnable` is 1 exactly when the controller is present, enabled and allowed. */
  lemma XdciEnableRule(devices: map<DevFn, bool>, xdciCanEnable: bool)
    ensures DeviceEnable(XdciGate(devices, xdciCanEnable), UsbOtg) == 1
            <==> UsbOtg in devices && devices[UsbOtg] && xdciCanEnable
    ensures DeviceEnable(XdciGate(devices, xdciCanEnable), UsbOtg) <= 1
  {
  }

  /** The xDCI gate touches no other device's enable field. */
  lemma XdciGateKeepsOtherDevices(devices: map<DevFn, bool>, xdciCanEnable: bool, d: DevFn)
    requires d != UsbOtg
    ensures DeviceEnable(XdciGate(devices, xdciCanEnable), d) == DeviceEnable(devices, d)
  {
  }

  /** LAN with S0ix: the GbE-specific S0 settings apply only to a present LAN controller. */
  predicate LanS0ixApplies(config: ChipConfig, devices: map<DevFn, bool>) {
    Gbe in devices && config.s0ixEnable != 0
  }

  /**
   * `LTR_IGN`, the PMC register whose `IGN_GBE` bit makes the PMC ignore the
   * GbE controller's latency tolerance.  The memory-mapped access is out of
   * scope; the register is an abstract byte.
   */
  class PmcRegisters {
    var ltrIgn: bv8
  }

  /** `IGN_GBE`.  The header defining it is not part of this model; it is used only as a mask. */
  const IGN_GBE: bv8 := 0x08

  /** `ignore_gbe_ltr`: read-modify-write that sets `IGN_GBE` in `LTR_IGN`. */
  method IgnoreGbeLtr(pmc: PmcRegisters)
    modifies pmc`ltrIgn
    ensures pmc.ltrIgn == old(pmc.ltrIgn) | IGN_GBE
  {
    var reg8 := pmc.ltrIgn;
    reg8 := reg8 | IGN_GBE;
    pmc.ltrIgn := reg8;
  }

  /**
   * `LTR_IGN` after the LAN section: `IGN_GBE` set when the GbE S0ix settings
   * apply, otherwise untouched.  No other bit changes in either case.
   */
  function LtrIgnAfterLan(reg: bv8, config: ChipConfig, devices: map<DevFn, bool>): (r: bv8)
    ensures r & !IGN_GBE == reg & !IGN_GBE
    ensures r & IGN_GBE == IGN_GBE <==> LanS0ixApplies(config, devices) || reg & IGN_GBE == IGN_GBE
  {
    if LanS0ixApplies(config, devices) then reg | IGN_GBE else reg
  }

  /** Setting `IGN_GBE` sets that bit, keeps every other bit, and a second time changes nothing. */
  lemma IgnGbeSetsOnlyItsBit(reg: bv8)
    ensures (reg | IGN_GBE) & IGN_GBE == IGN_GBE
    ensures (reg | IGN_GBE) & !IGN_GBE == reg & !IGN_GBE
    ensures (reg | IGN_GBE) | IGN_GBE == reg | IGN_GBE
  {
  }

  /** A UPD array of `n` zero entries: what `memset(…, 0, …)` and the clearing loops leave. */
  function Zeros(n: nat): (z: seq<UInt8>)
    ensures |z| == n
    ensures forall k :: 0 <= k < n ==> z[k] == 0
  {
    seq(n, _ => 0)
  }

  /** One more zero written by a clearing loop. */
  lemma ZerosStep(base: seq<UInt8>, i: nat)
    requires i < |base|
    ensures Overlay(base, Zeros(i + 1)) == Overlay(base, Zeros(i))[i := 0]
  {
    assert Zeros(i + 1) == Zeros(i) + [0];
    OverlayStep(base, Zeros(i), 0);
  }

  // ---------------------------------------------------------------------
  // Before the mainboard hook
  // ---------------------------------------------------------------------


  /** "Set USB OC pin to 0 first": both over-current pin tables all zero, nothing else changed. */
  function ClearedOverCurrentPins(params: FspSConfig): (r: FspSConfig)
    ensures |r.usb2.Usb2OverCurrentPin| == |params.usb2.Usb2OverCurrentPin|
    ensures |r.usb3.Usb3OverCurrentPin| == |params.usb3.Usb3OverCurrentPin|
    ensures forall k :: 0 <= k < |r.usb2.Usb2OverCurrentPin| ==> r.usb2.Usb2OverCurrentPin[k] == 0
    ensures forall k :: 0 <= k < |r.usb3.Usb3OverCurrentPin| ==> r.usb3.Usb3OverCurrentPin[k] == 0
    ensures r.usb2.(Usb2OverCurrentPin := params.usb2.Usb2OverCurrentPin) == params.usb2
    ensures r.usb3.(Usb3OverCurrentPin := params.usb3.Usb3OverCurrentPin) == params.usb3
    ensures r.(usb2 := params.usb2, usb3 := params.usb3) == params
    ensures params.Valid() ==> r.Valid()
  {
    params.(usb2 := params.usb2.(Usb2OverCurrentPin := Zeros(|params.usb2.Usb2OverCurrentPin|)),
            usb3 := params.usb3.(Usb3OverCurrentPin := Zeros(|params.usb3.Usb3OverCurrentPin|)))
  }

  /** The two clearing loops, one entry at a time over each table. */
  method ClearOverCurrentPins(supd: FspsUpd)
    modifies supd`FspsConfig
    ensures supd.FspsConfig == ClearedOverCurrentPins(old(supd.FspsConfig))
  {
    ghost var before := supd.FspsConfig;
    ghost var pins2 := before.usb2.Usb2OverCurrentPin;
    for i := 0 to |supd.FspsConfig.usb2.Usb2OverCurrentPin|
      invariant supd.FspsConfig == before.(usb2 := before.usb2.(Usb2OverCurrentPin := Overlay(pins2, Zeros(i))))
    {
      ZerosStep(pins2, i);
      supd.FspsConfig := supd.FspsConfig.(usb2 := supd.FspsConfig.usb2.(
        Usb2OverCurrentPin := supd.FspsConfig.usb2.Usb2OverCurrentPin[i := 0]));
    }
    OverlayWhole(pins2, Zeros(|pins2|));
    ghost var cleared2 := supd.FspsConfig;
    ghost var pins3 := before.usb3.Usb3OverCurrentPin;
    for i := 0 to |supd.FspsConfig.usb3.Usb3OverCurrentPin|
      invariant supd.FspsConfig == cleared2.(usb3 := before.usb3.(Usb3OverCurrentPin := Overlay(pins3, Zeros(i))))
    {
      ZerosStep(pins3, i);
      supd.FspsConfig := supd.FspsConfig.(usb3 := supd.FspsConfig.usb3.(
        Usb3OverCurrentPin := supd.FspsConfig.usb3.Usb3OverCurrentPin[i := 0]));
    }
    OverlayWhole(pins3, Zeros(|pins3|));
  }

  /**
   * `mainboard_silicon_init_params`, the weak default: it only logs that it
   * was called, and changes nothing.
   */
  method MainboardSiliconInitParams(supd: FspsUpd)
    modifies supd`FspsConfig
    ensures supd.FspsConfig == old(supd.FspsConfig)
  {
  }

  /**
   * The UPD record handed to the mainboard hook: serial-IO modes parsed from
   * the device tree, the VBT address stored, and both over-current pin tables
   * cleared.
   */
  function PreHookConfig(params: FspSConfig, config: ChipConfig, devices: map<DevFn, bool>,
                         vbt: UInt32, cometLake: bool): (r: FspSConfig)
    requires config.Valid()
    ensures params.Valid() ==> r.Valid()
  {
    ClearedOverCurrentPins(params.(serialIo := ParsedSerialIo(params.serialIo, config, devices, cometLake),
                                   GraphicsConfigPtr := vbt))
  }

  // ---------------------------------------------------------------------
  // After the mainboard hook: one function and one method per section
  // ---------------------------------------------------------------------

  /** SATA: enable field from the device tree; mode, SALP and port tables only for a present controller. */
  function SataSection(sata: SataUpd, config: ChipConfig, devices: map<DevFn, bool>): (r: SataUpd)
    ensures r.SataEnable == DeviceEnable(devices, Sata)
    ensures Sata in devices ==> && r.SataMode == config.SataMode && r.SataSalpSupport == config.SataSalpSupport
                                && r.SataPortsEnable == config.SataPortsEnable
                                && r.SataPortsDevSlp == config.SataPortsDevSlp
    ensures Sata !in devices ==> r.(SataEnable := sata.SataEnable) == sata
  {
    if Sata !in devices then
      sata.(SataEnable := 0)
    else
      sata.(SataEnable := FlagByte(devices[Sata]),
            SataMode := config.SataMode,
            SataSalpSupport := config.SataSalpSupport,
            SataPortsEnable := config.SataPortsEnable,
            SataPortsDevSlp := config.SataPortsDevSlp)
  }

  method ConfigureSata(config: ChipConfig, devices: map<DevFn, bool>, supd: FspsUpd)
    modifies supd`FspsConfig
    ensures supd.FspsConfig == old(supd.FspsConfig).(sata := SataSection(old(supd.FspsConfig.sata), config, devices))
  {
    if Sata !in devices {
      supd.FspsConfig := supd.FspsConfig.(sata := supd.FspsConfig.sata.(SataEnable := 0));
    } else {
      supd.FspsConfig := supd.FspsConfig.(sata := supd.FspsConfig.sata.(SataEnable := FlagByte(devices[Sata])));
      supd.FspsConfig := supd.FspsConfig.(sata := supd.FspsConfig.sata.(SataMode := config.SataMode));
      supd.FspsConfig := supd.FspsConfig.(sata := supd.FspsConfig.sata.(SataSalpSupport := config.SataSalpSupport));
      supd.FspsConfig := supd.FspsConfig.(sata := supd.FspsConfig.sata.(SataPortsEnable := config.SataPortsEnable));
      supd.FspsConfig := supd.FspsConfig.(sata := supd.FspsConfig.sata.(SataPortsDevSlp := config.SataPortsDevSlp));
    }
  }

  /** LAN: enable field from the device tree; with S0ix, the GbE S0 settings for a present controller. */
  function LanSection(lan: LanUpd, config: ChipConfig, devices: map<DevFn, bool>): (r: LanUpd)
    ensures r.PchLanEnable == DeviceEnable(devices, Gbe)
    ensures LanS0ixApplies(config, devices) ==> && r.SlpS0WithGbeSupport == 1
                                                && r.PchPmSlpS0VmRuntimeControl == 0
                                                && r.PchPmSlpS0Vm070VSupport == 0
                                                && r.PchPmSlpS0Vm075VSupport == 0
    ensures !LanS0ixApplies(config, devices) ==> r.(PchLanEnable := lan.PchLanEnable) == lan
  {
    if Gbe !in devices then
      lan.(PchLanEnable := 0)
    else if config.s0ixEnable != 0 then
      lan.(PchLanEnable := FlagByte(devices[Gbe]),
           SlpS0WithGbeSupport := 1,
           PchPmSlpS0VmRuntimeControl := 0,
           PchPmSlpS0Vm070VSupport := 0,
           PchPmSlpS0Vm075VSupport := 0)
    else
      lan.(PchLanEnable := FlagByte(devices[Gbe]))
  }

  /** The LAN section, which also makes the PMC ignore the GbE latency tolerance when its S0ix settings apply. */
  method ConfigureLan(config: ChipConfig, devices: map<DevFn, bool>, supd: FspsUpd, pmc: PmcRegisters)
    modifies supd`FspsConfig, pmc`ltrIgn
    ensures supd.FspsConfig == old(supd.FspsConfig).(lan := LanSection(old(supd.FspsConfig.lan), config, devices))
    ensures pmc.ltrIgn == LtrIgnAfterLan(old(pmc.ltrIgn), config, devices)
  {
    if Gbe !in devices {
      supd.FspsConfig := supd.FspsConfig.(lan := supd.FspsConfig.lan.(PchLanEnable := 0));
    } else {
      supd.FspsConfig := supd.FspsConfig.(lan := supd.FspsConfig.lan.(PchLanEnable := FlagByte(devices[Gbe])));
      if config.s0ixEnable != 0 {
        supd.FspsConfig := supd.FspsConfig.(lan := supd.FspsConfig.lan.(SlpS0WithGbeSupport := 1));
        supd.FspsConfig := supd.FspsConfig.(lan := supd.FspsConfig.lan.(PchPmSlpS0VmRuntimeControl := 0));
        supd.FspsConfig := supd.FspsConfig.(lan := supd.FspsConfig.lan.(PchPmSlpS0Vm070VSupport := 0));
        supd.FspsConfig := supd.FspsConfig.(lan := supd.FspsConfig.lan.(PchPmSlpS0Vm075VSupport := 0));
        IgnoreGbeLtr(pmc);
      }
    }
  }

  /** The HD Audio fields: every one a copy of the configuration. */
  function AudioFromConfig(config: ChipConfig): (r: AudioUpd)
    ensures && r.PchHdaDspEnable == config.PchHdaDspEnable
            && r.PchHdaAudioLinkHda == config.PchHdaAudioLinkHda
            && r.PchHdaAudioLinkDmic0 == config.PchHdaAudioLinkDmic0
            && r.PchHdaAudioLinkDmic1 == config.PchHdaAudioLinkDmic1
            && r.PchHdaAudioLinkSsp0 == config.PchHdaAudioLinkSsp0
            && r.PchHdaAudioLinkSsp1 == config.PchHdaAudioLinkSsp1
            && r.PchHdaAudioLinkSsp2 == config.PchHdaAudioLinkSsp2
            && r.PchHdaAudioLinkSndw1 == config.PchHdaAudioLinkSndw1
            && r.PchHdaAudioLinkSndw2 == config.PchHdaAudioLinkSndw2
            && r.PchHdaAudioLinkSndw3 == config.PchHdaAudioLinkSndw3
            && r.PchHdaAudioLinkSndw4 == config.PchHdaAudioLinkSndw4
  {
    AudioUpd(config.PchHdaDspEnable, config.PchHdaAudioLinkHda,
             config.PchHdaAudioLinkDmic0, config.PchHdaAudioLinkDmic1,
             config.PchHdaAudioLinkSsp0, config.PchHdaAudioLinkSsp1, config.PchHdaAudioLinkSsp2,
             config.PchHdaAudioLinkSndw1, config.PchHdaAudioLinkSndw2,
             config.PchHdaAudioLinkSndw3, config.PchHdaAudioLinkSndw4)
  }

  /** The display fields: eDP, then the DDI ports' HPD and DDC, every one a copy of the configuration. */
  function DisplayFromConfig(config: ChipConfig): (r: DisplayUpd)
    ensures r.DdiPortEdp == config.DdiPortEdp
    ensures && r.DdiPortBHpd == config.DdiPortBHpd && r.DdiPortCHpd == config.DdiPortCHpd
            && r.DdiPortDHpd == config.DdiPortDHpd && r.DdiPortFHpd == config.DdiPortFHpd
    ensures && r.DdiPortBDdc == config.DdiPortBDdc && r.DdiPortCDdc == config.DdiPortCDdc
            && r.DdiPortDDdc == config.DdiPortDDdc && r.DdiPortFDdc == config.DdiPortFDdc
  {
    DisplayUpd(config.DdiPortEdp,
               config.DdiPortBHpd, config.DdiPortCHpd, config.DdiPortDHpd, config.DdiPortFHpd,
               config.DdiPortBDdc, config.DdiPortCDdc, config.DdiPortDDdc, config.DdiPortFDdc)
  }

  /** Audio, eDP and the DDI ports' HPD and DDC settings, one store per field. */
  method ConfigureAudioAndDisplay(config: ChipConfig, supd: FspsUpd)
    modifies supd`FspsConfig
    ensures supd.FspsConfig == old(supd.FspsConfig).(audio := AudioFromConfig(config),
                                                     display := DisplayFromConfig(config))
  {
    supd.FspsConfig := supd.FspsConfig.(audio := supd.FspsConfig.audio.(PchHdaDspEnable := config.PchHdaDspEnable));
    supd.FspsConfig := supd.FspsConfig.(audio := supd.FspsConfig.audio.(PchHdaAudioLinkHda := config.PchHdaAudioLinkHda));
    supd.FspsConfig := supd.FspsConfig.(audio := supd.FspsConfig.audio.(PchHdaAudioLinkDmic0 := config.PchHdaAudioLinkDmic0));
    supd.FspsConfig := supd.FspsConfig.(audio := supd.FspsConfig.audio.(PchHdaAudioLinkDmic1 := config.PchHdaAudioLinkDmic1));
    supd.FspsConfig := supd.FspsConfig.(audio := supd.FspsConfig.audio.(PchHdaAudioLinkSsp0 := config.PchHdaAudioLinkSsp0));
    supd.FspsConfig := supd.FspsConfig.(audio := supd.FspsConfig.audio.(PchHdaAudioLinkSsp1 := config.PchHdaAudioLinkSsp1));
    supd.FspsConfig := supd.FspsConfig.(audio := supd.FspsConfig.audio.(PchHdaAudioLinkSsp2 := config.PchHdaAudioLinkSsp2));
    supd.FspsConfig := supd.FspsConfig.(audio := supd.FspsConfig.audio.(PchHdaAudioLinkSndw1 := config.PchHdaAudioLinkSndw1));
    supd.FspsConfig := supd.FspsConfig.(audio := supd.FspsConfig.audio.(PchHdaAudioLinkSndw2 := config.PchHdaAudioLinkSndw2));
    supd.FspsConfig := supd.FspsConfig.(audio := supd.FspsConfig.audio.(PchHdaAudioLinkSndw3 := config.PchHdaAudioLinkSndw3));
    supd.FspsConfig := supd.FspsConfig.(audio := supd.FspsConfig.audio.(PchHdaAudioLinkSndw4 := config.PchHdaAudioLinkSndw4));
    supd.FspsConfig := supd.FspsConfig.(display := supd.FspsConfig.display.(DdiPortEdp := config.DdiPortEdp));
    supd.FspsConfig := supd.FspsConfig.(display := supd.FspsConfig.display.(DdiPortBHpd := config.DdiPortBHpd));
    supd.FspsConfig := supd.FspsConfig.(display := supd.FspsConfig.display.(DdiPortCHpd := config.DdiPortCHpd));
    supd.FspsConfig := supd.FspsConfig.(display := supd.FspsConfig.display.(DdiPortDHpd := config.DdiPortDHpd));
    supd.FspsConfig := supd.FspsConfig.(display := supd.FspsConfig.display.(DdiPortFHpd := config.DdiPortFHpd));
    supd.FspsConfig := supd.FspsConfig.(display := supd.FspsConfig.display.(DdiPortBDdc := config.DdiPortBDdc));
    supd.FspsConfig := supd.FspsConfig.(display := supd.FspsConfig.display.(DdiPortCDdc := config.DdiPortCDdc));
    supd.FspsConfig := supd.FspsConfig.(display := supd.FspsConfig.display.(DdiPortDDdc := config.DdiPortDDdc));
    supd.FspsConfig := supd.FspsConfig.(display := supd.FspsConfig.display.(DdiPortFDdc := config.DdiPortFDdc));
  }

  /** One iteration of the USB 2 loop: port `i`'s six settings written to entry `i`. */
  function Usb2PortWritten(usb2: Usb2Upd, i: nat, port: Usb2PortConfig): (r: Usb2Upd)
    requires usb2.Shape() && i < USB2_PORT_COUNT
    ensures r.Shape()
    ensures && r.PortUsb20Enable[i] == port.enable && r.Usb2OverCurrentPin[i] == port.ocpin
            && r.Usb2AfePetxiset[i] == port.preEmpBias && r.Usb2AfeTxiset[i] == port.txBias
            && r.Usb2AfePredeemp[i] == port.txEmpEnable && r.Usb2AfePehalfbit[i] == port.preEmpBit
    ensures forall k :: 0 <= k < USB2_PORT_COUNT && k != i ==>
              && r.PortUsb20Enable[k] == usb2.PortUsb20Enable[k]
              && r.Usb2OverCurrentPin[k] == usb2.Usb2OverCurrentPin[k]
              && r.Usb2AfePetxiset[k] == usb2.Usb2AfePetxiset[k]
              && r.Usb2AfeTxiset[k] == usb2.Usb2AfeTxiset[k]
              && r.Usb2AfePredeemp[k] == usb2.Usb2AfePredeemp[k]
              && r.Usb2AfePehalfbit[k] == usb2.Usb2AfePehalfbit[k]
  {
    usb2.(PortUsb20Enable := usb2.PortUsb20Enable[i := port.enable],
          Usb2OverCurrentPin := usb2.Usb2OverCurrentPin[i := port.ocpin],
          Usb2AfePetxiset := usb2.Usb2AfePetxiset[i := port.preEmpBias],
          Usb2AfeTxiset := usb2.Usb2AfeTxiset[i := port.txBias],
          Usb2AfePredeemp := usb2.Usb2AfePredeemp[i := port.txEmpEnable],
          Usb2AfePehalfbit := usb2.Usb2AfePehalfbit[i := port.preEmpBit])
  }

  /** The USB 2 loop over the configuration's port array, in order; the port arrays keep their sizes. */
  function Usb2Section(usb2: Usb2Upd, ports: seq<Usb2PortConfig>): (r: Usb2Upd)
    requires usb2.Shape() && |ports| <= USB2_PORT_COUNT
    ensures r.Shape()
    decreases |ports|
  {
    if ports == [] then usb2
    else Usb2PortWritten(Usb2Section(usb2, ports[..|ports| - 1]), |ports| - 1, ports[|ports| - 1])
  }

  /**
   * After the USB 2 loop, entry `k` of each port array holds port `k`'s
   * setting when `k` indexes the configuration's port array and its prior
   * value otherwise.
   */
  lemma {:induction false} Usb2SectionAt(usb2: Usb2Upd, ports: seq<Usb2PortConfig>, k: nat)
    requires usb2.Shape() && |ports| <= USB2_PORT_COUNT && k < USB2_PORT_COUNT
    ensures var r := Usb2Section(usb2, ports);
            k < |ports| ==> && r.PortUsb20Enable[k] == ports[k].enable
                            && r.Usb2OverCurrentPin[k] == ports[k].ocpin
                            && r.Usb2AfePetxiset[k] == ports[k].preEmpBias
                            && r.Usb2AfeTxiset[k] == ports[k].txBias
                            && r.Usb2AfePredeemp[k] == ports[k].txEmpEnable
                            && r.Usb2AfePehalfbit[k] == ports[k].preEmpBit
    ensures var r := Usb2Section(usb2, ports);
            k >= |ports| ==> && r.PortUsb20Enable[k] == usb2.PortUsb20Enable[k]
                             && r.Usb2OverCurrentPin[k] == usb2.Usb2OverCurrentPin[k]
                             && r.Usb2AfePetxiset[k] == usb2.Usb2AfePetxiset[k]
                             && r.Usb2AfeTxiset[k] == usb2.Usb2AfeTxiset[k]
                             && r.Usb2AfePredeemp[k] == usb2.Usb2AfePredeemp[k]
                             && r.Usb2AfePehalfbit[k] == usb2.Usb2AfePehalfbit[k]
    decreases |ports|
  {
    if ports != [] {
      var prefix := ports[..|ports| - 1];
      Usb2SectionAt(usb2, prefix, k);
      if k < |prefix| {
        assert ports[k] == prefix[k];
      }
    }
  }

  /** `for (i = 0; i < ARRAY_SIZE(config->usb2_ports); i++)`: each port's settings in turn. */
  method ConfigureUsb2Ports(config: ChipConfig, supd: FspsUpd)
    requires config.Valid() && supd.FspsConfig.usb2.Shape()
    modifies supd`FspsConfig
    ensures supd.FspsConfig == old(supd.FspsConfig).(usb2 := Usb2Section(old(supd.FspsConfig.usb2), config.usb2Ports))
  {
    ghost var before := supd.FspsConfig;
    var ports := config.usb2Ports;
    for i := 0 to |ports|
      invariant supd.FspsConfig == before.(usb2 := Usb2Section(before.usb2, ports[..i]))
    {
      assert ports[..i + 1][..i] == ports[..i];
      var port := ports[i];
      supd.FspsConfig := supd.FspsConfig.(usb2 := supd.FspsConfig.usb2.(
        PortUsb20Enable := supd.FspsConfig.usb2.PortUsb20Enable[i := port.enable]));
      supd.FspsConfig := supd.FspsConfig.(usb2 := supd.FspsConfig.usb2.(
        Usb2OverCurrentPin := supd.FspsConfig.usb2.Usb2OverCurrentPin[i := port.ocpin]));
      supd.FspsConfig := supd.FspsConfig.(usb2 := supd.FspsConfig.usb2.(
        Usb2AfePetxiset := supd.FspsConfig.usb2.Usb2AfePetxiset[i := port.preEmpBias]));
      supd.FspsConfig := supd.FspsConfig.(usb2 := supd.FspsConfig.usb2.(
        Usb2AfeTxiset := supd.FspsConfig.usb2.Usb2AfeTxiset[i := port.txBias]));
      supd.FspsConfig := supd.FspsConfig.(usb2 := supd.FspsConfig.usb2.(
        Usb2AfePredeemp := supd.FspsConfig.usb2.Usb2AfePredeemp[i := port.txEmpEnable]));
      supd.FspsConfig := supd.FspsConfig.(usb2 := supd.FspsConfig.usb2.(
        Usb2AfePehalfbit := supd.FspsConfig.usb2.Usb2AfePehalfbit[i := port.preEmpBit]));
    }
    assert ports[..|ports|] == ports;
  }

  /**
   * One iteration of the USB 3 loop: port `i`'s enable flag and over-current
   * pin, and each HSIO tuning value with its enable bit only when it is
   * non-zero.
   */
  function Usb3PortWritten(usb3: Usb3Upd, i: nat, port: Usb3PortConfig): (r: Usb3Upd)
    requires usb3.Shape() && i < USB3_PORT_COUNT
    ensures r.Shape()
    ensures r.PortUsb30Enable[i] == port.enable && r.Usb3OverCurrentPin[i] == port.ocpin
    ensures port.txDeEmp != 0 ==> r.Usb3HsioTxDeEmphEnable[i] == 1 && r.Usb3HsioTxDeEmph[i] == port.txDeEmp
    ensures port.txDeEmp == 0 ==> && r.Usb3HsioTxDeEmphEnable[i] == usb3.Usb3HsioTxDeEmphEnable[i]
                                  && r.Usb3HsioTxDeEmph[i] == usb3.Usb3HsioTxDeEmph[i]
    ensures port.txDownscaleAmp != 0 ==> && r.Usb3HsioTxDownscaleAmpEnable[i] == 1
                                         && r.Usb3HsioTxDownscaleAmp[i] == port.txDownscaleAmp
    ensures port.txDownscaleAmp == 0 ==> && r.Usb3HsioTxDownscaleAmpEnable[i] == usb3.Usb3HsioTxDownscaleAmpEnable[i]
                                         && r.Usb3HsioTxDownscaleAmp[i] == usb3.Usb3HsioTxDownscaleAmp[i]
    ensures forall k :: 0 <= k < USB3_PORT_COUNT && k != i ==>
              && r.PortUsb30Enable[k] == usb3.PortUsb30Enable[k]
              && r.Usb3OverCurrentPin[k] == usb3.Usb3OverCurrentPin[k]
              && r.Usb3HsioTxDeEmphEnable[k] == usb3.Usb3HsioTxDeEmphEnable[k]
              && r.Usb3HsioTxDeEmph[k] == usb3.Usb3HsioTxDeEmph[k]
              && r.Usb3HsioTxDownscaleAmpEnable[k] == usb3.Usb3HsioTxDownscaleAmpEnable[k]
              && r.Usb3HsioTxDownscaleAmp[k] == usb3.Usb3HsioTxDownscaleAmp[k]
  {
    var basic := usb3.(PortUsb30Enable := usb3.PortUsb30Enable[i := port.enable],
                       Usb3OverCurrentPin := usb3.Usb3OverCurrentPin[i := port.ocpin]);
    var deEmph := if port.txDeEmp != 0 then
                    basic.(Usb3HsioTxDeEmphEnable := basic.Usb3HsioTxDeEmphEnable[i := 1],
                           Usb3HsioTxDeEmph := basic.Usb3HsioTxDeEmph[i := port.txDeEmp])
                  else basic;
    if port.txDownscaleAmp != 0 then
      deEmph.(Usb3HsioTxDownscaleAmpEnable := deEmph.Usb3HsioTxDownscaleAmpEnable[i := 1],
              Usb3HsioTxDownscaleAmp := deEmph.Usb3HsioTxDownscaleAmp[i := port.txDownscaleAmp])
    else deEmph
  }

  /** The USB 3 loop over the configuration's port array, in order; the port arrays keep their sizes. */
  function Usb3Section(usb3: Usb3Upd, ports: seq<Usb3PortConfig>): (r: Usb3Upd)
    requires usb3.Shape() && |ports| <= USB3_PORT_COUNT
    ensures r.Shape()
    decreases |ports|
  {
    if ports == [] then usb3
    else Usb3PortWritten(Usb3Section(usb3, ports[..|ports| - 1]), |ports| - 1, ports[|ports| - 1])
  }

  /**
   * After the USB 3 loop, the enable flag and over-current pin of a port in
   * the configuration's array are its configured values, and its HSIO
   * de-emphasis and downscale amplitude are sparse overrides whose enable bit
   * is set exactly when the override is written; every entry past the
   * configuration's array is unchanged.
   */
  lemma {:induction false} Usb3SectionAt(usb3: Usb3Upd, ports: seq<Usb3PortConfig>, k: nat)
    requires usb3.Shape() && |ports| <= USB3_PORT_COUNT && k < USB3_PORT_COUNT
    ensures var r := Usb3Section(usb3, ports);
            k < |ports| ==>
              && r.PortUsb30Enable[k] == ports[k].enable
              && r.Usb3OverCurrentPin[k] == ports[k].ocpin
              && r.Usb3HsioTxDeEmph[k] == SparseOverride(usb3.Usb3HsioTxDeEmph[k], ports[k].txDeEmp)
              && r.Usb3HsioTxDeEmphEnable[k]
                 == (if ports[k].txDeEmp != 0 then 1 else usb3.Usb3HsioTxDeEmphEnable[k])
              && r.Usb3HsioTxDownscaleAmp[k]
                 == SparseOverride(usb3.Usb3HsioTxDownscaleAmp[k], ports[k].txDownscaleAmp)
              && r.Usb3HsioTxDownscaleAmpEnable[k]
                 == (if ports[k].txDownscaleAmp != 0 then 1 else usb3.Usb3HsioTxDownscaleAmpEnable[k])
    ensures var r := Usb3Section(usb3, ports);
            k >= |ports| ==>
              && r.PortUsb30Enable[k] == usb3.PortUsb30Enable[k]
              && r.Usb3OverCurrentPin[k] == usb3.Usb3OverCurrentPin[k]
              && r.Usb3HsioTxDeEmph[k] == usb3.Usb3HsioTxDeEmph[k]
              && r.Usb3HsioTxDeEmphEnable[k] == usb3.Usb3HsioTxDeEmphEnable[k]
              && r.Usb3HsioTxDownscaleAmp[k] == usb3.Usb3HsioTxDownscaleAmp[k]
              && r.Usb3HsioTxDownscaleAmpEnable[k] == usb3.Usb3HsioTxDownscaleAmpEnable[k]
    decreases |ports|
  {
    if ports != [] {
      var prefix := ports[..|ports| - 1];
      Usb3SectionAt(usb3, prefix, k);
      if k < |prefix| {
        assert ports[k] == prefix[k];
      }
    }
  }

  /** `for (i = 0; i < ARRAY_SIZE(config->usb3_ports); i++)`: each port's settings in turn. */
  method ConfigureUsb3Ports(config: ChipConfig, supd: FspsUpd)
    requires config.Valid() && supd.FspsConfig.usb3.Shape()
    modifies supd`FspsConfig
    ensures supd.FspsConfig == old(supd.FspsConfig).(usb3 := Usb3Section(old(supd.FspsConfig.usb3), config.usb3Ports))
  {
    ghost var before := supd.FspsConfig;
    var ports := config.usb3Ports;
    for i := 0 to |ports|
      invariant supd.FspsConfig == before.(usb3 := Usb3Section(before.usb3, ports[..i]))
    {
      assert ports[..i + 1][..i] == ports[..i];
      var port := ports[i];
      supd.FspsConfig := supd.FspsConfig.(usb3 := supd.FspsConfig.usb3.(
        PortUsb30Enable := supd.FspsConfig.usb3.PortUsb30Enable[i := port.enable]));
      supd.FspsConfig := supd.FspsConfig.(usb3 := supd.FspsConfig.usb3.(
        Usb3OverCurrentPin := supd.FspsConfig.usb3.Usb3OverCurrentPin[i := port.ocpin]));
      if port.txDeEmp != 0 {
        supd.FspsConfig := supd.FspsConfig.(usb3 := supd.FspsConfig.usb3.(
          Usb3HsioTxDeEmphEnable := supd.FspsConfig.usb3.Usb3HsioTxDeEmphEnable[i := 1]));
        supd.FspsConfig := supd.FspsConfig.(usb3 := supd.FspsConfig.usb3.(
          Usb3HsioTxDeEmph := supd.FspsConfig.usb3.Usb3HsioTxDeEmph[i := port.txDeEmp]));
      }
      if port.txDownscaleAmp != 0 {
        supd.FspsConfig := supd.FspsConfig.(usb3 := supd.FspsConfig.usb3.(
          Usb3HsioTxDownscaleAmpEnable := supd.FspsConfig.usb3.Usb3HsioTxDownscaleAmpEnable[i := 1]));
        supd.FspsConfig := supd.FspsConfig.(usb3 := supd.FspsConfig.usb3.(
          Usb3HsioTxDownscaleAmp := supd.FspsConfig.usb3.Usb3HsioTxDownscaleAmp[i := port.txDownscaleAmp]));
      }
    }
    assert ports[..|ports|] == ports;
  }

  /**
   * xDCI: a present controller that may not be enabled has its `enabled`
   * flag cleared in the device tree; `XdciEnable` then follows the tree.
   */
  method ConfigureXdci(tree: DeviceTree, supd: FspsUpd, xdciCanEnable: bool)
    modifies tree`slots, supd`FspsConfig
    ensures tree.slots == XdciGate(old(tree.slots), xdciCanEnable)
    ensures supd.FspsConfig == old(supd.FspsConfig).(XdciEnable := DeviceEnable(tree.slots, UsbOtg))
  {
    if UsbOtg in tree.slots {
      if !xdciCanEnable {
        tree.slots := tree.slots[UsbOtg := false];
      }
      supd.FspsConfig := supd.FspsConfig.(XdciEnable := FlagByte(tree.slots[UsbOtg]));
    } else {
      supd.FspsConfig := supd.FspsConfig.(XdciEnable := 0);
    }
  }

  /** CNVi Wi-Fi: the mode field of the build's UPD layout follows the device tree; the other is untouched. */
  function CnviSection(params: FspSConfig, devices: map<DevFn, bool>, cometLake: bool): (r: FspSConfig)
    ensures cometLake ==> r.CnviMode == DeviceEnable(devices, CnviWifi) && r.(CnviMode := params.CnviMode) == params
    ensures !cometLake ==> r.PchCnviMode == DeviceEnable(devices, CnviWifi) && r.(PchCnviMode := params.PchCnviMode) == params
  {
    if cometLake then
      params.(CnviMode := if CnviWifi in devices then FlagByte(devices[CnviWifi]) else 0)
    else
      params.(PchCnviMode := if CnviWifi in devices then FlagByte(devices[CnviWifi]) else 0)
  }

  method ConfigureCnvi(devices: map<DevFn, bool>, supd: FspsUpd, cometLake: bool)
    modifies supd`FspsConfig
    ensures supd.FspsConfig == CnviSection(old(supd.FspsConfig), devices, cometLake)
  {
    if cometLake {
      if CnviWifi in devices {
        supd.FspsConfig := supd.FspsConfig.(CnviMode := FlagByte(devices[CnviWifi]));
      } else {
        supd.FspsConfig := supd.FspsConfig.(CnviMode := 0);
      }
    } else {
      if CnviWifi in devices {
        supd.FspsConfig := supd.FspsConfig.(PchCnviMode := FlagByte(devices[CnviWifi]));
      } else {
        supd.FspsConfig := supd.FspsConfig.(PchCnviMode := 0);
      }
    }
  }

  /** PCI Express: the clock-source table `clkSrc` and the configuration's other PCIe tables copied. */
  function PcieSection(pcie: PcieUpd, config: ChipConfig, clkSrc: seq<UInt8>): (r: PcieUpd)
    ensures r.PcieClkSrcUsage == clkSrc
    ensures && r.PcieClkSrcClkReq == config.PcieClkSrcClkReq
            && r.PcieRpLtrEnable == config.PcieRpLtrEnable
            && r.PcieRpHotPlug == config.PcieRpHotPlug
    ensures r.PcieRpPmSci == pcie.PcieRpPmSci
    ensures pcie.Shape() && config.Valid() && |clkSrc| == PCIE_CLK_COUNT ==> r.Shape()
  {
    pcie.(PcieClkSrcUsage := clkSrc,
          PcieClkSrcClkReq := config.PcieClkSrcClkReq,
          PcieRpLtrEnable := config.PcieRpLtrEnable,
          PcieRpHotPlug := config.PcieRpHotPlug)
  }

  /**
   * PCI Express: the configuration's clock-source table is normalised in
   * place, then it and the clock-request, LTR and hot-plug tables are copied
   * into the UPD record.
   */
  method ConfigurePcie(config: ChipConfig, supd: FspsUpd)
    modifies config.PcieClkSrcUsage, supd`FspsConfig
    ensures config.PcieClkSrcUsage[..] == NormalizedClkSrcUsage(old(config.PcieClkSrcUsage[..]))
    ensures supd.FspsConfig == old(supd.FspsConfig).(
              pcie := PcieSection(old(supd.FspsConfig.pcie), config, config.PcieClkSrcUsage[..]))
  {
    NormalizePcieClkSrcUsage(config.PcieClkSrcUsage);
    supd.FspsConfig := supd.FspsConfig.(pcie := supd.FspsConfig.pcie.(PcieClkSrcUsage := config.PcieClkSrcUsage[..]));
    supd.FspsConfig := supd.FspsConfig.(pcie := supd.FspsConfig.pcie.(PcieClkSrcClkReq := config.PcieClkSrcClkReq));
    supd.FspsConfig := supd.FspsConfig.(pcie := supd.FspsConfig.pcie.(PcieRpLtrEnable := config.PcieRpLtrEnable));
    supd.FspsConfig := supd.FspsConfig.(pcie := supd.FspsConfig.pcie.(PcieRpHotPlug := config.PcieRpHotPlug));
  }

  /**
   * eMMC: enable field from the device tree; for a present controller the
   * HS400 settings, and the DLL tuning values only when the board says they
   * are needed (`EmmcHs400DllNeed == 1`).
   */
  function EmmcSection(scs: ScsUpd, config: ChipConfig, devices: map<DevFn, bool>): (r: ScsUpd)
    ensures r.ScsEmmcEnabled == DeviceEnable(devices, Emmc)
    ensures Emmc in devices ==> && r.ScsEmmcHs400Enabled == config.ScsEmmcHs400Enabled
                                && r.PchScsEmmcHs400DllDataValid == config.EmmcHs400DllNeed
    ensures Emmc in devices && config.EmmcHs400DllNeed == 1 ==>
              && r.PchScsEmmcHs400RxStrobeDll1 == config.EmmcHs400RxStrobeDll1
              && r.PchScsEmmcHs400TxDataDll == config.EmmcHs400TxDataDll
    ensures Emmc !in devices || config.EmmcHs400DllNeed != 1 ==>
              && r.PchScsEmmcHs400RxStrobeDll1 == scs.PchScsEmmcHs400RxStrobeDll1
              && r.PchScsEmmcHs400TxDataDll == scs.PchScsEmmcHs400TxDataDll
    ensures Emmc !in devices ==> r.(ScsEmmcEnabled := scs.ScsEmmcEnabled) == scs
    ensures && r.ScsSdCardEnabled == scs.ScsSdCardEnabled
            && r.SdCardPowerEnableActiveHigh == scs.SdCardPowerEnableActiveHigh
            && r.ScsUfsEnabled == scs.ScsUfsEnabled
  {
    if Emmc !in devices then
      scs.(ScsEmmcEnabled := 0)
    else
      var hs400 := scs.(ScsEmmcEnabled := FlagByte(devices[Emmc]),
                        ScsEmmcHs400Enabled := config.ScsEmmcHs400Enabled,
                        PchScsEmmcHs400DllDataValid := config.EmmcHs400DllNeed);
      if config.EmmcHs400DllNeed == 1 then
        hs400.(PchScsEmmcHs400RxStrobeDll1 := config.EmmcHs400RxStrobeDll1,
               PchScsEmmcHs400TxDataDll := config.EmmcHs400TxDataDll)
      else hs400
  }

  method ConfigureEmmc(config: ChipConfig, devices: map<DevFn, bool>, supd: FspsUpd)
    modifies supd`FspsConfig
    ensures supd.FspsConfig == old(supd.FspsConfig).(scs := EmmcSection(old(supd.FspsConfig.scs), config, devices))
  {
    if Emmc !in devices {
      supd.FspsConfig := supd.FspsConfig.(scs := supd.FspsConfig.scs.(ScsEmmcEnabled := 0));
    } else {
      supd.FspsConfig := supd.FspsConfig.(scs := supd.FspsConfig.scs.(ScsEmmcEnabled := FlagByte(devices[Emmc])));
      supd.FspsConfig := supd.FspsConfig.(scs := supd.FspsConfig.scs.(ScsEmmcHs400Enabled := config.ScsEmmcHs400Enabled));
      supd.FspsConfig := supd.FspsConfig.(scs := supd.FspsConfig.scs.(PchScsEmmcHs400DllDataValid := config.EmmcHs400DllNeed));
      if config.EmmcHs400DllNeed == 1 {
        supd.FspsConfig := supd.FspsConfig.(scs := supd.FspsConfig.scs.(
          PchScsEmmcHs400RxStrobeDll1 := config.EmmcHs400RxStrobeDll1));
        supd.FspsConfig := supd.FspsConfig.(scs := supd.FspsConfig.scs.(
          PchScsEmmcHs400TxDataDll := config.EmmcHs400TxDataDll));
      }
    }
  }

  /** SD card: enable field from the device tree; the power-enable polarity only for a present controller. */
  function SdCardSection(scs: ScsUpd, devices: map<DevFn, bool>, sdPwrEnableActiveHigh: bool): (r: ScsUpd)
    ensures r.ScsSdCardEnabled == DeviceEnable(devices, SdCard)
    ensures SdCard in devices ==> r.SdCardPowerEnableActiveHigh == FlagByte(sdPwrEnableActiveHigh)
    ensures SdCard !in devices ==> r.(ScsSdCardEnabled := scs.ScsSdCardEnabled) == scs
    ensures r.(ScsSdCardEnabled := scs.ScsSdCardEnabled, SdCardPowerEnableActiveHigh := scs.SdCardPowerEnableActiveHigh)
            == scs
  {
    if SdCard !in devices then
      scs.(ScsSdCardEnabled := 0)
    else
      scs.(ScsSdCardEnabled := FlagByte(devices[SdCard]),
           SdCardPowerEnableActiveHigh := FlagByte(sdPwrEnableActiveHigh))
  }

  method ConfigureSdCard(devices: map<DevFn, bool>, supd: FspsUpd, sdPwrEnableActiveHigh: bool)
    modifies supd`FspsConfig
    ensures supd.FspsConfig == old(supd.FspsConfig).(
              scs := SdCardSection(old(supd.FspsConfig.scs), devices, sdPwrEnableActiveHigh))
  {
    if SdCard !in devices {
      supd.FspsConfig := supd.FspsConfig.(scs := supd.FspsConfig.scs.(ScsSdCardEnabled := 0));
    } else {
      supd.FspsConfig := supd.FspsConfig.(scs := supd.FspsConfig.scs.(ScsSdCardEnabled := FlagByte(devices[SdCard])));
      supd.FspsConfig := supd.FspsConfig.(scs := supd.FspsConfig.scs.(
        SdCardPowerEnableActiveHigh := FlagByte(sdPwrEnableActiveHigh)));
    }
  }

  /**
   * The storage controllers' section: eMMC, then SD card, then the UFS
   * enable field.  Each enable field follows the device tree.
   */
  function StorageSection(scs: ScsUpd, config: ChipConfig, devices: map<DevFn, bool>,
                          sdPwrEnableActiveHigh: bool): (r: ScsUpd)
    ensures && r.ScsEmmcEnabled == DeviceEnable(devices, Emmc)
            && r.ScsSdCardEnabled == DeviceEnable(devices, SdCard)
            && r.ScsUfsEnabled == DeviceEnable(devices, Ufs)
  {
    SdCardSection(EmmcSection(scs, config, devices), devices, sdPwrEnableActiveHigh)
      .(ScsUfsEnabled := DeviceEnable(devices, Ufs))
  }

  /** UFS: enable field from the device tree. */
  method ConfigureUfs(devices: map<DevFn, bool>, supd: FspsUpd)
    modifies supd`FspsConfig
    ensures supd.FspsConfig == old(supd.FspsConfig).(
              scs := old(supd.FspsConfig.scs).(ScsUfsEnabled := DeviceEnable(devices, Ufs)))
  {
    if Ufs !in devices {
      supd.FspsConfig := supd.FspsConfig.(scs := supd.FspsConfig.scs.(ScsUfsEnabled := 0));
    } else {
      supd.FspsConfig := supd.FspsConfig.(scs := supd.FspsConfig.scs.(ScsUfsEnabled := FlagByte(devices[Ufs])));
    }
  }

  /** Acoustic noise mitigation and the power optimizer switches: every one a copy of the configuration. */
  function PowerFromConfig(config: ChipConfig): (r: PowerUpd)
    ensures && r.AcousticNoiseMitigation == config.AcousticNoiseMitigation
            && r.SlowSlewRateForIa == config.SlowSlewRateForIa && r.SlowSlewRateForGt == config.SlowSlewRateForGt
            && r.SlowSlewRateForSa == config.SlowSlewRateForSa && r.SlowSlewRateForFivr == config.SlowSlewRateForFivr
            && r.FastPkgCRampDisableIa == config.FastPkgCRampDisableIa
            && r.FastPkgCRampDisableGt == config.FastPkgCRampDisableGt
            && r.FastPkgCRampDisableSa == config.FastPkgCRampDisableSa
            && r.FastPkgCRampDisableFivr == config.FastPkgCRampDisableFivr
    ensures r.PchPwrOptEnable == config.dmipwroptimize && r.SataPwrOptEnable == config.satapwroptimize
  {
    PowerUpd(config.AcousticNoiseMitigation,
             config.SlowSlewRateForIa, config.SlowSlewRateForGt,
             config.SlowSlewRateForSa, config.SlowSlewRateForFivr,
             config.FastPkgCRampDisableIa, config.FastPkgCRampDisableGt,
             config.FastPkgCRampDisableSa, config.FastPkgCRampDisableFivr,
             config.dmipwroptimize, config.satapwroptimize)
  }

  method ConfigurePower(config: ChipConfig, supd: FspsUpd)
    modifies supd`FspsConfig
    ensures supd.FspsConfig == old(supd.FspsConfig).(power := PowerFromConfig(config))
  {
    supd.FspsConfig := supd.FspsConfig.(power := supd.FspsConfig.power.(AcousticNoiseMitigation := config.AcousticNoiseMitigation));
    supd.FspsConfig := supd.FspsConfig.(power := supd.FspsConfig.power.(SlowSlewRateForIa := config.SlowSlewRateForIa));
    supd.FspsConfig := supd.FspsConfig.(power := supd.FspsConfig.power.(SlowSlewRateForGt := config.SlowSlewRateForGt));
    supd.FspsConfig := supd.FspsConfig.(power := supd.FspsConfig.power.(SlowSlewRateForSa := config.SlowSlewRateForSa));
    supd.FspsConfig := supd.FspsConfig.(power := supd.FspsConfig.power.(SlowSlewRateForFivr := config.SlowSlewRateForFivr));
    supd.FspsConfig := supd.FspsConfig.(power := supd.FspsConfig.power.(FastPkgCRampDisableIa := config.FastPkgCRampDisableIa));
    supd.FspsConfig := supd.FspsConfig.(power := supd.FspsConfig.power.(FastPkgCRampDisableGt := config.FastPkgCRampDisableGt));
    supd.FspsConfig := supd.FspsConfig.(power := supd.FspsConfig.power.(FastPkgCRampDisableSa := config.FastPkgCRampDisableSa));
    supd.FspsConfig := supd.FspsConfig.(power := supd.FspsConfig.power.(FastPkgCRampDisableFivr := config.FastPkgCRampDisableFivr));
    supd.FspsConfig := supd.FspsConfig.(power := supd.FspsConfig.power.(PchPwrOptEnable := config.dmipwroptimize));
    supd.FspsConfig := supd.FspsConfig.(power := supd.FspsConfig.power.(SataPwrOptEnable := config.satapwroptimize));
  }

  /** The four sleep-signal minimum assertion widths, each a sparse override. */
  function SlpMinAssertSection(pm: PmUpd, config: ChipConfig): (r: PmUpd)
    ensures config.PchPmSlpS3MinAssert == 0 ==> r.PchPmSlpS3MinAssert == pm.PchPmSlpS3MinAssert
    ensures config.PchPmSlpS3MinAssert != 0 ==> r.PchPmSlpS3MinAssert == config.PchPmSlpS3MinAssert
    ensures config.PchPmSlpS4MinAssert == 0 ==> r.PchPmSlpS4MinAssert == pm.PchPmSlpS4MinAssert
    ensures config.PchPmSlpS4MinAssert != 0 ==> r.PchPmSlpS4MinAssert == config.PchPmSlpS4MinAssert
    ensures config.PchPmSlpSusMinAssert == 0 ==> r.PchPmSlpSusMinAssert == pm.PchPmSlpSusMinAssert
    ensures config.PchPmSlpSusMinAssert != 0 ==> r.PchPmSlpSusMinAssert == config.PchPmSlpSusMinAssert
    ensures config.PchPmSlpAMinAssert == 0 ==> r.PchPmSlpAMinAssert == pm.PchPmSlpAMinAssert
    ensures config.PchPmSlpAMinAssert != 0 ==> r.PchPmSlpAMinAssert == config.PchPmSlpAMinAssert
    ensures r.PchPmSlpS0Enable == pm.PchPmSlpS0Enable
  {
    pm.(PchPmSlpS3MinAssert := SparseOverride(pm.PchPmSlpS3MinAssert, config.PchPmSlpS3MinAssert),
        PchPmSlpS4MinAssert := SparseOverride(pm.PchPmSlpS4MinAssert, config.PchPmSlpS4MinAssert),
        PchPmSlpSusMinAssert := SparseOverride(pm.PchPmSlpSusMinAssert, config.PchPmSlpSusMinAssert),
        PchPmSlpAMinAssert := SparseOverride(pm.PchPmSlpAMinAssert, config.PchPmSlpAMinAssert))
  }

  method ConfigureSlpMinAssert(config: ChipConfig, supd: FspsUpd)
    modifies supd`FspsConfig
    ensures supd.FspsConfig == old(supd.FspsConfig).(pm := SlpMinAssertSection(old(supd.FspsConfig.pm), config))
  {
    if config.PchPmSlpS3MinAssert != 0 {
      supd.FspsConfig := supd.FspsConfig.(pm := supd.FspsConfig.pm.(PchPmSlpS3MinAssert := config.PchPmSlpS3MinAssert));
    }
    if config.PchPmSlpS4MinAssert != 0 {
      supd.FspsConfig := supd.FspsConfig.(pm := supd.FspsConfig.pm.(PchPmSlpS4MinAssert := config.PchPmSlpS4MinAssert));
    }
    if config.PchPmSlpSusMinAssert != 0 {
      supd.FspsConfig := supd.FspsConfig.(pm := supd.FspsConfig.pm.(PchPmSlpSusMinAssert := config.PchPmSlpSusMinAssert));
    }
    if config.PchPmSlpAMinAssert != 0 {
      supd.FspsConfig := supd.FspsConfig.(pm := supd.FspsConfig.pm.(PchPmSlpAMinAssert := config.PchPmSlpAMinAssert));
    }
  }

  /** "Set PsysPmax if it is available": a sparse override in 1/8 W units. */
  method SetPsysPmax(config: ChipConfig, supd: FspsUpd)
    modifies supd`FspsTestConfig
    ensures supd.FspsTestConfig == if config.psysPmax != 0
                                   then old(supd.FspsTestConfig).(PsysPmax := PsysPmaxUnits(config.psysPmax))
                                   else old(supd.FspsTestConfig)
  {
    if config.psysPmax != 0 {
      supd.FspsTestConfig := supd.FspsTestConfig.(PsysPmax := PsysPmaxUnits(config.psysPmax));
    }
  }

  // ---------------------------------------------------------------------
  // The whole callback
  // ---------------------------------------------------------------------

  /**
   * The first half of what the callback writes after the mainboard hook, up
   * to and including xDCI: RTC lock, SATA, LAN, audio, display, S0ix, legacy
   * PME, the USB ports and `XdciEnable`.  `devices` is the device tree as the
   * callback found it.
   */
  function EarlySections(hooked: FspSConfig, config: ChipConfig, devices: map<DevFn, bool>,
                         xdciCanEnable: bool): (r: FspSConfig)
    requires config.Valid() && hooked.Valid()
    ensures r.Valid()
  {
    hooked.(PchLockDownRtcMemoryLock := 0,
            sata := SataSection(hooked.sata, config, devices),
            lan := LanSection(hooked.lan, config, devices),
            audio := AudioFromConfig(config),
            display := DisplayFromConfig(config),
            pm := hooked.pm.(PchPmSlpS0Enable := config.s0ixEnable),
            pcie := hooked.pcie.(PcieRpPmSci := Zeros(|hooked.pcie.PcieRpPmSci|)),
            usb2 := Usb2Section(hooked.usb2, config.usb2Ports),
            usb3 := Usb3Section(hooked.usb3, config.usb3Ports),
            XdciEnable := DeviceEnable(XdciGate(devices, xdciCanEnable), UsbOtg))
  }

  /**
   * The second half, after xDCI: debug UART, CNVi, PCI Express, eMMC, SD
   * card, UFS, HECI3 and device 4, acoustic and power optimizer settings and
   * the sleep-signal widths.  `clkSrc` is the configuration's clock-source
   * table before normalisation; `gated` is the device tree after the xDCI
   * step.
   */
  function LateSections(early: FspSConfig, config: ChipConfig, clkSrc: seq<UInt8>,
                        gated: map<DevFn, bool>, build: BuildOptions): (r: FspSConfig)
    requires config.Valid() && early.Valid() && |clkSrc| == PCIE_CLK_COUNT
    ensures r.Valid()
  {
    var written := early.(
      serialIo := early.serialIo.(SerialIoDebugUartNumber := build.uartForConsole),
      pcie := PcieSection(early.pcie, config, NormalizedClkSrcUsage(clkSrc)),
      scs := StorageSection(early.scs, config, gated, build.sdPwrEnableActiveHigh),
      Heci3Enabled := config.Heci3Enabled,
      Device4Enable := config.Device4Enable,
      power := PowerFromConfig(config),
      pm := SlpMinAssertSection(early.pm, config));
    CnviSection(written, gated, build.cometLake)
  }

  /**
   * Everything the callback writes after the mainboard hook, applied to the
   * record `hooked` the hook left behind; `devices` is the device tree before
   * the xDCI step, and the sections after that step see the tree it leaves.
   */
  function PostHookConfig(hooked: FspSConfig, config: ChipConfig, clkSrc: seq<UInt8>,
                          devices: map<DevFn, bool>, build: BuildOptions, xdciCanEnable: bool): (r: FspSConfig)
    requires config.Valid() && hooked.Valid() && |clkSrc| == PCIE_CLK_COUNT
    ensures r.Valid()
  {
    LateSections(EarlySections(hooked, config, devices, xdciCanEnable),
                 config, clkSrc, XdciGate(devices, xdciCanEnable), build)
  }

  /** The UPD record the callback leaves, with the weak mainboard hook that changes nothing. */
  function SiliconInitConfig(params: FspSConfig, config: ChipConfig, clkSrc: seq<UInt8>,
                             devices: map<DevFn, bool>, build: BuildOptions, vbt: UInt32,
                             xdciCanEnable: bool): (r: FspSConfig)
    requires config.Valid() && params.Valid() && |clkSrc| == PCIE_CLK_COUNT
    ensures r.Valid()
  {
    PostHookConfig(PreHookConfig(params, config, devices, vbt, build.cometLake),
                   config, clkSrc, devices, build, xdciCanEnable)
  }

  /**
   * The test-config UPD record after the callback: `PsysPmax` in 1/8 W units
   * when the configuration gives a power (a sparse override), then the low
   * byte of the TCC activation offset and the GPIO pad unlock copied.
   */
  function TestConfigSection(tconfig: FspSTestConfig, config: ChipConfig): (r: FspSTestConfig)
    ensures config.psysPmax == 0 ==> r.PsysPmax == tconfig.PsysPmax
    ensures config.psysPmax != 0 ==> r.PsysPmax == PsysPmaxUnits(config.psysPmax)
    ensures 0 < config.psysPmax < 0x2000 ==> r.PsysPmax == config.psysPmax * 8 && r.PsysPmax / 8 == config.psysPmax
    ensures r.TccActivationOffset == TccOffsetByte(config.tccOffset) && r.PchUnlockGpioPads == config.PchUnlockGpioPads
    ensures config.tccOffset < 0x100 ==> r.TccActivationOffset == config.tccOffset
  {
    var psys := if config.psysPmax != 0 then tconfig.(PsysPmax := PsysPmaxUnits(config.psysPmax)) else tconfig;
    psys.(TccActivationOffset := TccOffsetByte(config.tccOffset), PchUnlockGpioPads := config.PchUnlockGpioPads)
  }

  /** The callback up to the mainboard hook: device-tree parse, VBT address, over-current pins cleared. */
  method PrepareForHook(supd: FspsUpd, config: ChipConfig, devices: map<DevFn, bool>, vbt: UInt32, cometLake: bool)
    requires config.Valid() && supd.FspsConfig.Valid()
    modifies supd`FspsConfig
    ensures supd.FspsConfig == PreHookConfig(old(supd.FspsConfig), config, devices, vbt, cometLake)
  {
    ParseDevicetree(Some(config), devices, supd, cometLake);
    supd.FspsConfig := supd.FspsConfig.(GraphicsConfigPtr := vbt);
    ClearOverCurrentPins(supd);
  }

  /** The callback's stores after the hook, up to and including xDCI. */
  method ApplyEarlySections(supd: FspsUpd, config: ChipConfig, tree: DeviceTree, pmc: PmcRegisters,
                            xdciCanEnable: bool)
    requires config.Valid() && supd.FspsConfig.Valid()
    modifies supd`FspsConfig, tree`slots, pmc`ltrIgn
    ensures tree.slots == XdciGate(old(tree.slots), xdciCanEnable)
    ensures pmc.ltrIgn == LtrIgnAfterLan(old(pmc.ltrIgn), config, old(tree.slots))
    ensures supd.FspsConfig == EarlySections(old(supd.FspsConfig), config, old(tree.slots), xdciCanEnable)
  {
    supd.FspsConfig := supd.FspsConfig.(PchLockDownRtcMemoryLock := 0);
    ConfigureSata(config, tree.slots, supd);
    ConfigureLan(config, tree.slots, supd, pmc);
    ConfigureAudioAndDisplay(config, supd);
    supd.FspsConfig := supd.FspsConfig.(pm := supd.FspsConfig.pm.(PchPmSlpS0Enable := config.s0ixEnable));
    supd.FspsConfig := supd.FspsConfig.(pcie := supd.FspsConfig.pcie.(
      PcieRpPmSci := Zeros(|supd.FspsConfig.pcie.PcieRpPmSci|)));
    ConfigureUsb2Ports(config, supd);
    ConfigureUsb3Ports(config, supd);
    ConfigureXdci(tree, supd, xdciCanEnable);
  }

  /** The callback's stores after xDCI, with the configuration's clock-source table normalised in place. */
  method ApplyLateSections(supd: FspsUpd, config: ChipConfig, gated: map<DevFn, bool>, build: BuildOptions)
    requires config.Valid() && supd.FspsConfig.Valid()
    modifies supd`FspsConfig, config.PcieClkSrcUsage
    ensures config.PcieClkSrcUsage[..] == NormalizedClkSrcUsage(old(config.PcieClkSrcUsage[..]))
    ensures supd.FspsConfig == LateSections(old(supd.FspsConfig), config, old(config.PcieClkSrcUsage[..]),
                                            gated, build)
  {
    supd.FspsConfig := supd.FspsConfig.(serialIo := supd.FspsConfig.serialIo.(
      SerialIoDebugUartNumber := build.uartForConsole));
    ConfigureCnvi(gated, supd, build.cometLake);
    ConfigurePcie(config, supd);
    ConfigureEmmc(config, gated, supd);
    ConfigureSdCard(gated, supd, build.sdPwrEnableActiveHigh);
    ConfigureUfs(gated, supd);
    supd.FspsConfig := supd.FspsConfig.(Heci3Enabled := config.Heci3Enabled);
    supd.FspsConfig := supd.FspsConfig.(Device4Enable := config.Device4Enable);
    ConfigurePower(config, supd);
    ConfigureSlpMinAssert(config, supd);
  }

  /**
   * `platform_fsp_silicon_init_params_cb`: fills both UPD records from the
   * chip configuration and the device tree, clears the xDCI controller's
   * `enabled` flag when it may not be enabled, normalises the
   * configuration's clock-source table in place and, for a present LAN
   * controller with S0ix, makes the PMC ignore the GbE latency tolerance.
   * `SA_DEV_ROOT` is taken to exist, as the callback itself dereferences it.
   */
  method PlatformFspSiliconInitParamsCb(supd: FspsUpd, config: ChipConfig, tree: DeviceTree, pmc: PmcRegisters,
                                        build: BuildOptions, vbt: UInt32, xdciCanEnable: bool)
    requires config.Valid() && supd.FspsConfig.Valid()
    modifies supd`FspsConfig, supd`FspsTestConfig, tree`slots, config.PcieClkSrcUsage, pmc`ltrIgn
    ensures tree.slots == XdciGate(old(tree.slots), xdciCanEnable)
    ensures config.PcieClkSrcUsage[..] == NormalizedClkSrcUsage(old(config.PcieClkSrcUsage[..]))
    ensures pmc.ltrIgn == LtrIgnAfterLan(old(pmc.ltrIgn), config, old(tree.slots))
    ensures supd.FspsConfig == SiliconInitConfig(old(supd.FspsConfig), config, old(config.PcieClkSrcUsage[..]),
                                                 old(tree.slots), build, vbt, xdciCanEnable)
    ensures supd.FspsTestConfig == TestConfigSection(old(supd.FspsTestConfig), config)
  {
    PrepareForHook(supd, config, tree.slots, vbt, build.cometLake);
    MainboardSiliconInitParams(supd);
    SetPsysPmax(config, supd);
    ApplyEarlySections(supd, config, tree, pmc, xdciCanEnable);
    ApplyLateSections(supd, config, tree.slots, build);
    supd.FspsTestConfig := supd.FspsTestConfig.(TccActivationOffset := TccOffsetByte(config.tccOffset));
    supd.FspsTestConfig := supd.FspsTestConfig.(PchUnlockGpioPads := config.PchUnlockGpioPads);
  }
}
