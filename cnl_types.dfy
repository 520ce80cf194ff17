/**
 * Types shared by the Cannon Lake silicon-init parameter mapper
 * (src/soc/intel/cannonlake/fsp_params.c): fixed-width integers, the PCH
 * devices the mapper looks up, the device tree's presence table, the chip
 * configuration record (`config_t`) and the two UPD blocks it fills
 * (`FSP_S_CONFIG` and `FSP_S_TEST_CONFIG`).
 *
 * The UPD blocks are records: a C struct with embedded arrays is a value
 * that cannot alias any other, which a datatype with `seq` fields of fixed
 * length models exactly.  The fields of `FSP_S_CONFIG` are grouped into one
 * record per section of the mapper (serial IO, USB 2, USB 3, SATA, ...);
 * the field names are the UPD names.  The block the callback fills in place
 * is the object `FspsUpd` holding the two records.  The one configuration
 * array that the mapper rewrites through the shared `chip_info` pointer,
 * `PcieClkSrcUsage`, is a Dafny `array`.
 */
module CnlTypes {

  datatype Option<+T> = None | Some(value: T)

  type UInt8 = x: int | 0 <= x < 0x100
  type UInt16 = x: int | 0 <= x < 0x1_0000
  type UInt32 = x: int | 0 <= x < 0x1_0000_0000

  /** A one-bit `enabled` flag stored into a `UINT8` UPD field. */
  function FlagByte(b: bool): (v: UInt8)
    ensures v <= 1
    ensures v == 1 <==> b
  {
    if b then 1 else 0
  }

  // Array sizes of the UPD blocks and of the chip configuration.  They come
  // from the FSP and chip headers, which are not part of this model; the
  // proofs use only that each block's sizes agree as stated in Valid().
  const SERIAL_IO_DEV_COUNT: nat := 12
  const I2C_DEV_MAX: nat := 6        // CONFIG_SOC_INTEL_I2C_DEV_MAX
  const GSPI_MAX: nat := 3           // CONFIG_SOC_INTEL_COMMON_BLOCK_GSPI_MAX
  const CML_UART_DEV_MAX: nat := 3   // SOC_INTEL_CML_UART_DEV_MAX
  const SATA_PORT_COUNT: nat := 8
  const USB2_PORT_COUNT: nat := 16
  const USB3_PORT_COUNT: nat := 10
  const PCIE_CLK_COUNT: nat := 16
  const PCIE_RP_COUNT: nat := 24

  /**
   * The PCH devices the mapper looks up with `dev_find_slot(0, PCH_DEVFN_*)`.
   * Their PCI device/function numbers are distinct; an enumeration keeps
   * exactly that fact.
   */
  datatype DevFn =
    | I2c0 | I2c1 | I2c2 | I2c3 | I2c4 | I2c5
    | Gspi0 | Gspi1 | Gspi2
    | Uart0 | Uart1 | Uart2
    | Sata | Gbe | UsbOtg | CnviWifi | Emmc | SdCard | Ufs

  /** `serial_io_dev[]`: the serial-IO controllers in UPD order. */
  const SERIAL_IO_DEV: seq<DevFn> :=
    [I2c0, I2c1, I2c2, I2c3, I2c4, I2c5, Gspi0, Gspi1, Gspi2, Uart0, Uart1, Uart2]

  /**
   * The device tree as the mapper sees it: a device that `dev_find_slot`
   * does not find is a missing key; a found device maps to its `enabled`
   * flag.  The mapper clears the flag of the xDCI controller, so the table
   * is state.
   */
  class DeviceTree {
    var slots: map<DevFn, bool>
  }

  /** The UPD value of a device's enable field: 0 when the device is absent, its flag otherwise. */
  function DeviceEnable(devices: map<DevFn, bool>, d: DevFn): (v: UInt8)
    ensures d !in devices ==> v == 0
    ensures d in devices ==> (v == 1 <==> devices[d]) && v <= 1
  {
    if d in devices then FlagByte(devices[d]) else 0
  }

  /** `usb2_ports[i]` of the chip configuration. */
  datatype Usb2PortConfig = Usb2PortConfig(
    enable: UInt8, ocpin: UInt8, preEmpBias: UInt8, txBias: UInt8,
    txEmpEnable: UInt8, preEmpBit: UInt8)

  /** `usb3_ports[i]` of the chip configuration. */
  datatype Usb3PortConfig = Usb3PortConfig(
    enable: UInt8, ocpin: UInt8, txDeEmp: UInt8, txDownscaleAmp: UInt8)

  /**
   * `config_t`: the chip configuration from the static device tree.  Only the
   * fields the silicon-init mapper reads are kept.  `usb2Ports` and
   * `usb3Ports` stand for the whole fixed-size arrays `usb2_ports[]` and
   * `usb3_ports[]`, every slot of which the mapper copies, including slots
   * a board leaves zero.  Their size comes from a header that is not part
   * of this model; any size up to the UPD block's is allowed, so a config
   * array shorter than the UPD array is a generalisation.
   */
  datatype ChipConfig = ChipConfig(
    SerialIoDevMode: seq<UInt8>,
    psysPmax: UInt16,
    SataMode: UInt8, SataSalpSupport: UInt8,
    SataPortsEnable: seq<UInt8>, SataPortsDevSlp: seq<UInt8>,
    s0ixEnable: UInt8,
    PchHdaDspEnable: UInt8, PchHdaAudioLinkHda: UInt8,
    PchHdaAudioLinkDmic0: UInt8, PchHdaAudioLinkDmic1: UInt8,
    PchHdaAudioLinkSsp0: UInt8, PchHdaAudioLinkSsp1: UInt8, PchHdaAudioLinkSsp2: UInt8,
    PchHdaAudioLinkSndw1: UInt8, PchHdaAudioLinkSndw2: UInt8,
    PchHdaAudioLinkSndw3: UInt8, PchHdaAudioLinkSndw4: UInt8,
    DdiPortEdp: UInt8,
    DdiPortBHpd: UInt8, DdiPortCHpd: UInt8, DdiPortDHpd: UInt8, DdiPortFHpd: UInt8,
    DdiPortBDdc: UInt8, DdiPortCDdc: UInt8, DdiPortDDdc: UInt8, DdiPortFDdc: UInt8,
    usb2Ports: seq<Usb2PortConfig>, usb3Ports: seq<Usb3PortConfig>,
    PcieClkSrcUsage: array<UInt8>,
    PcieClkSrcClkReq: seq<UInt8>, PcieRpLtrEnable: seq<UInt8>, PcieRpHotPlug: seq<UInt8>,
    ScsEmmcHs400Enabled: UInt8, EmmcHs400DllNeed: UInt8,
    EmmcHs400RxStrobeDll1: UInt8, EmmcHs400TxDataDll: UInt8,
    Heci3Enabled: UInt8, Device4Enable: UInt8,
    AcousticNoiseMitigation: UInt8,
    SlowSlewRateForIa: UInt8, SlowSlewRateForGt: UInt8,
    SlowSlewRateForSa: UInt8, SlowSlewRateForFivr: UInt8,
    FastPkgCRampDisableIa: UInt8, FastPkgCRampDisableGt: UInt8,
    FastPkgCRampDisableSa: UInt8, FastPkgCRampDisableFivr: UInt8,
    dmipwroptimize: UInt8, satapwroptimize: UInt8,
    PchPmSlpS3MinAssert: UInt8, PchPmSlpS4MinAssert: UInt8,
    PchPmSlpSusMinAssert: UInt8, PchPmSlpAMinAssert: UInt8,
    tccOffset: UInt32, PchUnlockGpioPads: UInt8)
  {
    /** The array sizes the C declarations fix. */
    predicate Valid() {
      && |SerialIoDevMode| == SERIAL_IO_DEV_COUNT
      && |SataPortsEnable| == SATA_PORT_COUNT && |SataPortsDevSlp| == SATA_PORT_COUNT
      && |usb2Ports| <= USB2_PORT_COUNT && |usb3Ports| <= USB3_PORT_COUNT
      && PcieClkSrcUsage.Length == PCIE_CLK_COUNT && |PcieClkSrcClkReq| == PCIE_CLK_COUNT
      && |PcieRpLtrEnable| == PCIE_RP_COUNT && |PcieRpHotPlug| == PCIE_RP_COUNT
    }
  }

  /**
   * The compile-time switches the mapper depends on: `CONFIG(SOC_INTEL_COMETLAKE)`,
   * `CONFIG_UART_FOR_CONSOLE` and `CONFIG(MB_HAS_ACTIVE_HIGH_SD_PWR_ENABLE)`.
   */
  datatype BuildOptions = BuildOptions(cometLake: bool, uartForConsole: UInt8, sdPwrEnableActiveHigh: bool)

  // `FSP_S_CONFIG` is one flat C struct.  Here its fields are grouped into
  // one record per section of the mapper that writes them, so that a
  // section's update rebuilds a small record; every field keeps its UPD
  // name, and a field is reached as `params.<group>.<UPD name>`.

  /** The serial-IO UPD fields: Cannon Lake layout, Comet Lake layout, and the debug UART. */
  datatype SerialIoUpd = SerialIoUpd(
    SerialIoDevMode: seq<UInt8>,
    SerialIoI2cMode: seq<UInt8>,
    SerialIoSpiMode: seq<UInt8>,
    SerialIoUartMode: seq<UInt8>,
    SerialIoDebugUartNumber: UInt8)
  {
    /** The serial-IO mode arrays have their layout's sizes. */
    predicate Shape() {
      && |SerialIoDevMode| == SERIAL_IO_DEV_COUNT
      && |SerialIoI2cMode| == I2C_DEV_MAX && |SerialIoSpiMode| == GSPI_MAX
      && |SerialIoUartMode| == CML_UART_DEV_MAX
    }
  }

  /** The USB 2 port UPD arrays, one entry per port. */
  datatype Usb2Upd = Usb2Upd(
    Usb2OverCurrentPin: seq<UInt8>,
    PortUsb20Enable: seq<UInt8>,
    Usb2AfePetxiset: seq<UInt8>,
    Usb2AfeTxiset: seq<UInt8>,
    Usb2AfePredeemp: seq<UInt8>,
    Usb2AfePehalfbit: seq<UInt8>)
  {
    /** Every array has one entry per USB 2 port of the UPD layout. */
    predicate Shape() {
      && |Usb2OverCurrentPin| == USB2_PORT_COUNT && |PortUsb20Enable| == USB2_PORT_COUNT
      && |Usb2AfePetxiset| == USB2_PORT_COUNT && |Usb2AfeTxiset| == USB2_PORT_COUNT
      && |Usb2AfePredeemp| == USB2_PORT_COUNT && |Usb2AfePehalfbit| == USB2_PORT_COUNT
    }
  }

  /** The USB 3 port UPD arrays, one entry per port. */
  datatype Usb3Upd = Usb3Upd(
    Usb3OverCurrentPin: seq<UInt8>,
    PortUsb30Enable: seq<UInt8>,
    Usb3HsioTxDeEmphEnable: seq<UInt8>,
    Usb3HsioTxDeEmph: seq<UInt8>,
    Usb3HsioTxDownscaleAmpEnable: seq<UInt8>,
    Usb3HsioTxDownscaleAmp: seq<UInt8>)
  {
    /** Every array has one entry per USB 3 port of the UPD layout. */
    predicate Shape() {
      && |Usb3OverCurrentPin| == USB3_PORT_COUNT && |PortUsb30Enable| == USB3_PORT_COUNT
      && |Usb3HsioTxDeEmphEnable| == USB3_PORT_COUNT && |Usb3HsioTxDeEmph| == USB3_PORT_COUNT
      && |Usb3HsioTxDownscaleAmpEnable| == USB3_PORT_COUNT
      && |Usb3HsioTxDownscaleAmp| == USB3_PORT_COUNT
    }
  }

  /** The SATA UPD fields the SATA section writes. */
  datatype SataUpd = SataUpd(
    SataEnable: UInt8,
    SataMode: UInt8,
    SataSalpSupport: UInt8,
    SataPortsEnable: seq<UInt8>,
    SataPortsDevSlp: seq<UInt8>)
  {
    /** The port tables have one entry per SATA port. */
    predicate Shape() {
      |SataPortsEnable| == SATA_PORT_COUNT && |SataPortsDevSlp| == SATA_PORT_COUNT
    }
  }

  /** The LAN UPD fields: the enable field and the GbE S0 settings. */
  datatype LanUpd = LanUpd(
    PchLanEnable: UInt8,
    SlpS0WithGbeSupport: UInt8,
    PchPmSlpS0VmRuntimeControl: UInt8,
    PchPmSlpS0Vm070VSupport: UInt8,
    PchPmSlpS0Vm075VSupport: UInt8)

  /** The HD Audio UPD fields. */
  datatype AudioUpd = AudioUpd(
    PchHdaDspEnable: UInt8,
    PchHdaAudioLinkHda: UInt8,
    PchHdaAudioLinkDmic0: UInt8,
    PchHdaAudioLinkDmic1: UInt8,
    PchHdaAudioLinkSsp0: UInt8,
    PchHdaAudioLinkSsp1: UInt8,
    PchHdaAudioLinkSsp2: UInt8,
    PchHdaAudioLinkSndw1: UInt8,
    PchHdaAudioLinkSndw2: UInt8,
    PchHdaAudioLinkSndw3: UInt8,
    PchHdaAudioLinkSndw4: UInt8)

  /** The display UPD fields: eDP and the DDI ports' hot-plug detect and DDC. */
  datatype DisplayUpd = DisplayUpd(
    DdiPortEdp: UInt8,
    DdiPortBHpd: UInt8,
    DdiPortCHpd: UInt8,
    DdiPortDHpd: UInt8,
    DdiPortFHpd: UInt8,
    DdiPortBDdc: UInt8,
    DdiPortCDdc: UInt8,
    DdiPortDDdc: UInt8,
    DdiPortFDdc: UInt8)

  /** The PCI Express UPD arrays: per root port, or per clock source. */
  datatype PcieUpd = PcieUpd(
    PcieRpPmSci: seq<UInt8>,
    PcieClkSrcUsage: seq<UInt8>,
    PcieClkSrcClkReq: seq<UInt8>,
    PcieRpLtrEnable: seq<UInt8>,
    PcieRpHotPlug: seq<UInt8>)
  {
    /** The arrays have one entry per root port or per clock source. */
    predicate Shape() {
      && |PcieRpPmSci| == PCIE_RP_COUNT
      && |PcieClkSrcUsage| == PCIE_CLK_COUNT && |PcieClkSrcClkReq| == PCIE_CLK_COUNT
      && |PcieRpLtrEnable| == PCIE_RP_COUNT && |PcieRpHotPlug| == PCIE_RP_COUNT
    }
  }

  /** The storage controller UPD fields: eMMC, SD card and UFS. */
  datatype ScsUpd = ScsUpd(
    ScsEmmcEnabled: UInt8,
    ScsEmmcHs400Enabled: UInt8,
    PchScsEmmcHs400DllDataValid: UInt8,
    PchScsEmmcHs400RxStrobeDll1: UInt8,
    PchScsEmmcHs400TxDataDll: UInt8,
    ScsSdCardEnabled: UInt8,
    SdCardPowerEnableActiveHigh: UInt8,
    ScsUfsEnabled: UInt8)

  /** Acoustic noise mitigation and the power optimizer switches. */
  datatype PowerUpd = PowerUpd(
    AcousticNoiseMitigation: UInt8,
    SlowSlewRateForIa: UInt8,
    SlowSlewRateForGt: UInt8,
    SlowSlewRateForSa: UInt8,
    SlowSlewRateForFivr: UInt8,
    FastPkgCRampDisableIa: UInt8,
    FastPkgCRampDisableGt: UInt8,
    FastPkgCRampDisableSa: UInt8,
    FastPkgCRampDisableFivr: UInt8,
    PchPwrOptEnable: UInt8,
    SataPwrOptEnable: UInt8)

  /** The power-management sleep settings: S0ix and the sleep-signal minimum assertion widths. */
  datatype PmUpd = PmUpd(
    PchPmSlpS0Enable: UInt8,
    PchPmSlpS3MinAssert: UInt8,
    PchPmSlpS4MinAssert: UInt8,
    PchPmSlpSusMinAssert: UInt8,
    PchPmSlpAMinAssert: UInt8)

  /** `FSP_S_CONFIG`: the silicon-init UPD fields the mapper writes. */
  datatype FspSConfig = FspSConfig(
    serialIo: SerialIoUpd,
    GraphicsConfigPtr: UInt32,
    usb2: Usb2Upd,
    usb3: Usb3Upd,
    XdciEnable: UInt8,
    PchLockDownRtcMemoryLock: UInt8,
    sata: SataUpd,
    lan: LanUpd,
    audio: AudioUpd,
    display: DisplayUpd,
    PchCnviMode: UInt8,    // Cannon Lake name of the CNVi mode field
    CnviMode: UInt8,       // Comet Lake name of the CNVi mode field
    pcie: PcieUpd,
    scs: ScsUpd,
    Heci3Enabled: UInt8,
    Device4Enable: UInt8,
    power: PowerUpd,
    pm: PmUpd)
  {
    /** Every array of the UPD block has its layout's size. */
    predicate Valid() {
      serialIo.Shape() && usb2.Shape() && usb3.Shape() && sata.Shape() && pcie.Shape()
    }
  }

  /** `FSP_S_TEST_CONFIG`: the test-config UPD fields the mapper writes. */
  datatype FspSTestConfig = FspSTestConfig(
    PsysPmax: UInt16,
    TccActivationOffset: UInt8,
    PchUnlockGpioPads: UInt8)

  /**
   * `FSPS_UPD`, the block the callback receives a pointer to: the two UPD
   * records, each updated in place field by field.
   */
  class FspsUpd {
    var FspsConfig: FspSConfig
    var FspsTestConfig: FspSTestConfig
  }

  /**
   * A C array whose first `|front|` entries have been overwritten by `front`:
   * the state of a UPD array part-way through a copy loop.
   */
  function Overlay<T>(base: seq<T>, front: seq<T>): (r: seq<T>)
    requires |front| <= |base|
    ensures |r| == |base|
    ensures forall k :: 0 <= k < |front| ==> r[k] == front[k]
    ensures forall k :: |front| <= k < |base| ==> r[k] == base[k]
  {
    front + base[|front|..]
  }

  /** One more loop iteration: overwriting one more entry extends the overwritten front by it. */
  lemma OverlayStep<T>(base: seq<T>, front: seq<T>, x: T)
    requires |front| < |base|
    ensures Overlay(base, front + [x]) == Overlay(base, front)[|front| := x]
  {
    var lhs := Overlay(base, front + [x]);
    var rhs := Overlay(base, front)[|front| := x];
    assert |lhs| == |rhs|;
    forall k | 0 <= k < |lhs|
      ensures lhs[k] == rhs[k]
    {
      if k < |front| {
        assert lhs[k] == (front + [x])[k] == front[k];
      }
    }
  }

  /** Once the whole array has been overwritten, nothing of the old contents is left. */
  lemma OverlayWhole<T>(base: seq<T>, front: seq<T>)
    requires |front| == |base|
    ensures Overlay(base, front) == front
  {
    assert base[|front|..] == [];
  }
}
