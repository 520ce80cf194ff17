/**
 * What the silicon-init mapper promises about the UPD record it leaves.
 * Properties of the rules applied after the mainboard hook are stated for
 * `PostHookConfig` and any record `hooked` a board's hook may leave
 * behind; properties that also need what happened before the hook are
 * stated for `SiliconInitConfig`, the whole callback with the weak hook.
 */
module CnlSiliconInitProperties {
  import opened CnlTypes
  import opened CnlSerialIo
  import opened CnlPcieClk
  import opened CnlSiliconInit

  /**
   * SATA and LAN: the enable field is 0 for an absent controller and its
   * `enabled` flag for a present one.
   */
  lemma SataLanEnableFields(hooked: FspSConfig, config: ChipConfig, clkSrc: seq<UInt8>,
                            devices: map<DevFn, bool>, build: BuildOptions, xdciCanEnable: bool)
    requires config.Valid() && hooked.Valid() && |clkSrc| == PCIE_CLK_COUNT
    ensures var r := PostHookConfig(hooked, config, clkSrc, devices, build, xdciCanEnable);
            && r.sata.SataEnable == DeviceEnable(devices, Sata)
            && r.lan.PchLanEnable == DeviceEnable(devices, Gbe)
  {
  }

  /**
   * eMMC, SD card and UFS: the enable field is 0 for an absent controller and
   * its `enabled` flag for a present one; the xDCI step before them does not
   * change these flags.
   */
  lemma StorageEnableFields(hooked: FspSConfig, config: ChipConfig, clkSrc: seq<UInt8>,
                            devices: map<DevFn, bool>, build: BuildOptions, xdciCanEnable: bool)
    requires config.Valid() && hooked.Valid() && |clkSrc| == PCIE_CLK_COUNT
    ensures var r := PostHookConfig(hooked, config, clkSrc, devices, build, xdciCanEnable);
            && r.scs.ScsEmmcEnabled == DeviceEnable(devices, Emmc)
            && r.scs.ScsSdCardEnabled == DeviceEnable(devices, SdCard)
            && r.scs.ScsUfsEnabled == DeviceEnable(devices, Ufs)
  {
    XdciGateKeepsOtherDevices(devices, xdciCanEnable, Emmc);
    XdciGateKeepsOtherDevices(devices, xdciCanEnable, SdCard);
    XdciGateKeepsOtherDevices(devices, xdciCanEnable, Ufs);
  }

  /**
   * The CNVi mode goes to the field of the build's UPD layout, 0 for an
   * absent controller and its `enabled` flag otherwise; the other layout's
   * field keeps the hook's value.
   */
  lemma CnviModeAfterHook(hooked: FspSConfig, config: ChipConfig, clkSrc: seq<UInt8>,
                          devices: map<DevFn, bool>, build: BuildOptions, xdciCanEnable: bool)
    requires config.Valid() && hooked.Valid() && |clkSrc| == PCIE_CLK_COUNT
    ensures var r := PostHookConfig(hooked, config, clkSrc, devices, build, xdciCanEnable);
            build.cometLake ==> r.CnviMode == DeviceEnable(devices, CnviWifi) && r.PchCnviMode == hooked.PchCnviMode
    ensures var r := PostHookConfig(hooked, config, clkSrc, devices, build, xdciCanEnable);
            !build.cometLake ==> r.PchCnviMode == DeviceEnable(devices, CnviWifi) && r.CnviMode == hooked.CnviMode
  {
    XdciGateKeepsOtherDevices(devices, xdciCanEnable, CnviWifi);
  }

  /** `XdciEnable` is 1 exactly when the controller is present, enabled and allowed, and 0 otherwise. */
  lemma XdciEnableAfterCallback(hooked: FspSConfig, config: ChipConfig, clkSrc: seq<UInt8>,
                                devices: map<DevFn, bool>, build: BuildOptions, xdciCanEnable: bool)
    requires config.Valid() && hooked.Valid() && |clkSrc| == PCIE_CLK_COUNT
    ensures var r := PostHookConfig(hooked, config, clkSrc, devices, build, xdciCanEnable);
            r.XdciEnable == 1 <==> UsbOtg in devices && devices[UsbOtg] && xdciCanEnable
    ensures var r := PostHookConfig(hooked, config, clkSrc, devices, build, xdciCanEnable);
            r.XdciEnable <= 1
  {
    XdciEnableRule(devices, xdciCanEnable);
  }

  /**
   * Whatever the mainboard hook wrote, every USB port slot of the
   * configuration's port arrays has its over-current pin and enable flag
   * from the configuration.
   */
  lemma ConfiguredPortsAfterHook(hooked: FspSConfig, config: ChipConfig, clkSrc: seq<UInt8>,
                                 devices: map<DevFn, bool>, build: BuildOptions, xdciCanEnable: bool)
    requires config.Valid() && hooked.Valid() && |clkSrc| == PCIE_CLK_COUNT
    ensures var r := PostHookConfig(hooked, config, clkSrc, devices, build, xdciCanEnable);
            forall k :: 0 <= k < |config.usb2Ports| ==>
              r.usb2.Usb2OverCurrentPin[k] == config.usb2Ports[k].ocpin
              && r.usb2.PortUsb20Enable[k] == config.usb2Ports[k].enable
    ensures var r := PostHookConfig(hooked, config, clkSrc, devices, build, xdciCanEnable);
            forall k :: 0 <= k < |config.usb3Ports| ==>
              r.usb3.Usb3OverCurrentPin[k] == config.usb3Ports[k].ocpin
              && r.usb3.PortUsb30Enable[k] == config.usb3Ports[k].enable
  {
    forall k | 0 <= k < |config.usb2Ports| {
      Usb2SectionAt(hooked.usb2, config.usb2Ports, k);
    }
    forall k | 0 <= k < |config.usb3Ports| {
      Usb3SectionAt(hooked.usb3, config.usb3Ports, k);
    }
  }

  /**
   * Past the configuration's port arrays, the USB port settings are the ones
   * the hook left.  This only says something when the board's port arrays
   * are shorter than the UPD's.
   */
  lemma PortsPastConfigArrayKeptAfterHook(hooked: FspSConfig, config: ChipConfig, clkSrc: seq<UInt8>,
                                          devices: map<DevFn, bool>, build: BuildOptions, xdciCanEnable: bool)
    requires config.Valid() && hooked.Valid() && |clkSrc| == PCIE_CLK_COUNT
    ensures var r := PostHookConfig(hooked, config, clkSrc, devices, build, xdciCanEnable);
            forall k :: |config.usb2Ports| <= k < USB2_PORT_COUNT ==>
              r.usb2.Usb2OverCurrentPin[k] == hooked.usb2.Usb2OverCurrentPin[k]
              && r.usb2.PortUsb20Enable[k] == hooked.usb2.PortUsb20Enable[k]
    ensures var r := PostHookConfig(hooked, config, clkSrc, devices, build, xdciCanEnable);
            forall k :: |config.usb3Ports| <= k < USB3_PORT_COUNT ==>
              r.usb3.Usb3OverCurrentPin[k] == hooked.usb3.Usb3OverCurrentPin[k]
              && r.usb3.PortUsb30Enable[k] == hooked.usb3.PortUsb30Enable[k]
  {
    forall k | |config.usb2Ports| <= k < USB2_PORT_COUNT {
      Usb2SectionAt(hooked.usb2, config.usb2Ports, k);
    }
    forall k | |config.usb3Ports| <= k < USB3_PORT_COUNT {
      Usb3SectionAt(hooked.usb3, config.usb3Ports, k);
    }
  }

  /**
   * The USB 3 HSIO tuning values of a port in the configuration's array are sparse overrides
   * of what the hook left, with the enable bit set exactly when the
   * override is written.
   */
  lemma Usb3HsioSparseAfterHook(hooked: FspSConfig, config: ChipConfig, clkSrc: seq<UInt8>,
                                devices: map<DevFn, bool>, build: BuildOptions, xdciCanEnable: bool)
    requires config.Valid() && hooked.Valid() && |clkSrc| == PCIE_CLK_COUNT
    ensures var r := PostHookConfig(hooked, config, clkSrc, devices, build, xdciCanEnable);
            forall k :: 0 <= k < |config.usb3Ports| ==>
              && r.usb3.Usb3HsioTxDeEmph[k]
                 == SparseOverride(hooked.usb3.Usb3HsioTxDeEmph[k], config.usb3Ports[k].txDeEmp)
              && (r.usb3.Usb3HsioTxDeEmphEnable[k] == 1 || config.usb3Ports[k].txDeEmp == 0)
              && (config.usb3Ports[k].txDeEmp == 0 ==>
                    r.usb3.Usb3HsioTxDeEmphEnable[k] == hooked.usb3.Usb3HsioTxDeEmphEnable[k])
              && r.usb3.Usb3HsioTxDownscaleAmp[k]
                 == SparseOverride(hooked.usb3.Usb3HsioTxDownscaleAmp[k], config.usb3Ports[k].txDownscaleAmp)
              && (r.usb3.Usb3HsioTxDownscaleAmpEnable[k] == 1 || config.usb3Ports[k].txDownscaleAmp == 0)
              && (config.usb3Ports[k].txDownscaleAmp == 0 ==>
                    r.usb3.Usb3HsioTxDownscaleAmpEnable[k] == hooked.usb3.Usb3HsioTxDownscaleAmpEnable[k])
  {
    forall k | 0 <= k < |config.usb3Ports| {
      Usb3SectionAt(hooked.usb3, config.usb3Ports, k);
    }
  }

  /**
   * With the weak hook, the over-current pins past the configuration's port
   * arrays stay 0: they were cleared before the hook and nothing writes them
   * afterwards.  Like the lemma above, this only bites when the board's port
   * arrays are shorter than the UPD's.
   */
  lemma OverCurrentPinsPastConfigArrayCleared(params: FspSConfig, config: ChipConfig, clkSrc: seq<UInt8>,
                                              devices: map<DevFn, bool>, build: BuildOptions, vbt: UInt32,
                                              xdciCanEnable: bool)
    requires config.Valid() && params.Valid() && |clkSrc| == PCIE_CLK_COUNT
    ensures var r := SiliconInitConfig(params, config, clkSrc, devices, build, vbt, xdciCanEnable);
            forall k :: |config.usb2Ports| <= k < USB2_PORT_COUNT ==> r.usb2.Usb2OverCurrentPin[k] == 0
    ensures var r := SiliconInitConfig(params, config, clkSrc, devices, build, vbt, xdciCanEnable);
            forall k :: |config.usb3Ports| <= k < USB3_PORT_COUNT ==> r.usb3.Usb3OverCurrentPin[k] == 0
  {
    var hooked := PreHookConfig(params, config, devices, vbt, build.cometLake);
    PortsPastConfigArrayKeptAfterHook(hooked, config, clkSrc, devices, build, xdciCanEnable);
  }

  /**
   * PCI Express after the callback: the clock-source table is the
   * normalised configuration table (no zero entry, non-zero entries kept),
   * the legacy PME SCI table is all zero, and the clock-request, LTR and
   * hot-plug tables are the configuration's.
   */
  lemma PcieTablesAfterHook(hooked: FspSConfig, config: ChipConfig, clkSrc: seq<UInt8>,
                            devices: map<DevFn, bool>, build: BuildOptions, xdciCanEnable: bool)
    requires config.Valid() && hooked.Valid() && |clkSrc| == PCIE_CLK_COUNT
    ensures var r := PostHookConfig(hooked, config, clkSrc, devices, build, xdciCanEnable);
            && |r.pcie.PcieClkSrcUsage| == PCIE_CLK_COUNT
            && (forall k :: 0 <= k < PCIE_CLK_COUNT ==> r.pcie.PcieClkSrcUsage[k] != 0)
            && (forall k :: 0 <= k < PCIE_CLK_COUNT && clkSrc[k] != 0 ==> r.pcie.PcieClkSrcUsage[k] == clkSrc[k])
            && (forall k :: 0 <= k < PCIE_CLK_COUNT && clkSrc[k] == 0 ==>
                  r.pcie.PcieClkSrcUsage[k] == PCIE_CLK_NOTUSED)
    ensures var r := PostHookConfig(hooked, config, clkSrc, devices, build, xdciCanEnable);
            forall k :: 0 <= k < PCIE_RP_COUNT ==> r.pcie.PcieRpPmSci[k] == 0
    ensures var r := PostHookConfig(hooked, config, clkSrc, devices, build, xdciCanEnable);
            && r.pcie.PcieClkSrcClkReq == config.PcieClkSrcClkReq
            && r.pcie.PcieRpLtrEnable == config.PcieRpLtrEnable
            && r.pcie.PcieRpHotPlug == config.PcieRpHotPlug
  {
    NormalizedClkSrcUsageSpec(clkSrc);
  }

  /**
   * The clock-source table copied into the UPD record is a fixed point of
   * normalisation: running the callback again on the normalised
   * configuration copies the same table.
   */
  lemma PcieClkSrcStable(hooked: FspSConfig, config: ChipConfig, clkSrc: seq<UInt8>,
                         devices: map<DevFn, bool>, build: BuildOptions, xdciCanEnable: bool)
    requires config.Valid() && hooked.Valid() && |clkSrc| == PCIE_CLK_COUNT
    ensures var r := PostHookConfig(hooked, config, clkSrc, devices, build, xdciCanEnable);
            var again := PostHookConfig(hooked, config, NormalizedClkSrcUsage(clkSrc), devices, build, xdciCanEnable);
            again.pcie.PcieClkSrcUsage == r.pcie.PcieClkSrcUsage
  {
    NormalizedClkSrcUsageIdempotent(clkSrc);
  }

  /**
   * The sleep-signal minimum assertion widths after the hook are sparse
   * overrides of what the hook left, and the S0ix switch is the
   * configuration's.
   */
  lemma PmSettingsAfterHook(hooked: FspSConfig, config: ChipConfig, clkSrc: seq<UInt8>,
                            devices: map<DevFn, bool>, build: BuildOptions, xdciCanEnable: bool)
    requires config.Valid() && hooked.Valid() && |clkSrc| == PCIE_CLK_COUNT
    ensures var r := PostHookConfig(hooked, config, clkSrc, devices, build, xdciCanEnable);
            && r.pm.PchPmSlpS3MinAssert == SparseOverride(hooked.pm.PchPmSlpS3MinAssert, config.PchPmSlpS3MinAssert)
            && r.pm.PchPmSlpS4MinAssert == SparseOverride(hooked.pm.PchPmSlpS4MinAssert, config.PchPmSlpS4MinAssert)
            && r.pm.PchPmSlpSusMinAssert == SparseOverride(hooked.pm.PchPmSlpSusMinAssert, config.PchPmSlpSusMinAssert)
            && r.pm.PchPmSlpAMinAssert == SparseOverride(hooked.pm.PchPmSlpAMinAssert, config.PchPmSlpAMinAssert)
            && r.pm.PchPmSlpS0Enable == config.s0ixEnable
  {
  }

  /**
   * LAN with S0ix: for a present controller the GbE S0 settings are
   * written; when they do not apply, the hook's values are kept.
   */
  lemma LanSettingsAfterHook(hooked: FspSConfig, config: ChipConfig, clkSrc: seq<UInt8>,
                             devices: map<DevFn, bool>, build: BuildOptions, xdciCanEnable: bool)
    requires config.Valid() && hooked.Valid() && |clkSrc| == PCIE_CLK_COUNT
    ensures var r := PostHookConfig(hooked, config, clkSrc, devices, build, xdciCanEnable);
            LanS0ixApplies(config, devices) ==>
              && r.lan.SlpS0WithGbeSupport == 1
              && r.lan.PchPmSlpS0VmRuntimeControl == 0
              && r.lan.PchPmSlpS0Vm070VSupport == 0
              && r.lan.PchPmSlpS0Vm075VSupport == 0
    ensures var r := PostHookConfig(hooked, config, clkSrc, devices, build, xdciCanEnable);
            !LanS0ixApplies(config, devices) ==>
              r.lan == hooked.lan.(PchLanEnable := DeviceEnable(devices, Gbe))
  {
  }

  /**
   * eMMC and SD card: the HS400 settings, DLL tuning values and the SD power
   * polarity are written only for a present controller, the DLL values only
   * when the board says they are needed; otherwise the hook's values are
   * kept.
   */
  lemma StorageSettingsAfterHook(hooked: FspSConfig, config: ChipConfig, clkSrc: seq<UInt8>,
                                 devices: map<DevFn, bool>, build: BuildOptions, xdciCanEnable: bool)
    requires config.Valid() && hooked.Valid() && |clkSrc| == PCIE_CLK_COUNT
    ensures var r := PostHookConfig(hooked, config, clkSrc, devices, build, xdciCanEnable);
            Emmc in devices ==> && r.scs.ScsEmmcHs400Enabled == config.ScsEmmcHs400Enabled
                                && r.scs.PchScsEmmcHs400DllDataValid == config.EmmcHs400DllNeed
    ensures var r := PostHookConfig(hooked, config, clkSrc, devices, build, xdciCanEnable);
            Emmc in devices && config.EmmcHs400DllNeed == 1 ==>
              && r.scs.PchScsEmmcHs400RxStrobeDll1 == config.EmmcHs400RxStrobeDll1
              && r.scs.PchScsEmmcHs400TxDataDll == config.EmmcHs400TxDataDll
    ensures var r := PostHookConfig(hooked, config, clkSrc, devices, build, xdciCanEnable);
            Emmc !in devices || config.EmmcHs400DllNeed != 1 ==>
              && r.scs.PchScsEmmcHs400RxStrobeDll1 == hooked.scs.PchScsEmmcHs400RxStrobeDll1
              && r.scs.PchScsEmmcHs400TxDataDll == hooked.scs.PchScsEmmcHs400TxDataDll
    ensures var r := PostHookConfig(hooked, config, clkSrc, devices, build, xdciCanEnable);
            Emmc !in devices ==> && r.scs.ScsEmmcHs400Enabled == hooked.scs.ScsEmmcHs400Enabled
                                 && r.scs.PchScsEmmcHs400DllDataValid == hooked.scs.PchScsEmmcHs400DllDataValid
    ensures var r := PostHookConfig(hooked, config, clkSrc, devices, build, xdciCanEnable);
            && (SdCard in devices ==> r.scs.SdCardPowerEnableActiveHigh == FlagByte(build.sdPwrEnableActiveHigh))
            && (SdCard !in devices ==> r.scs.SdCardPowerEnableActiveHigh == hooked.scs.SdCardPowerEnableActiveHigh)
  {
    var gated := XdciGate(devices, xdciCanEnable);
    var early := EarlySections(hooked, config, devices, xdciCanEnable);
    assert early.scs == hooked.scs;
    var emmc := EmmcSection(hooked.scs, config, gated);
    assert PostHookConfig(hooked, config, clkSrc, devices, build, xdciCanEnable).scs
           == SdCardSection(emmc, gated, build.sdPwrEnableActiveHigh).(ScsUfsEnabled := DeviceEnable(gated, Ufs));
  }

  /**
   * The fields written unconditionally: RTC memory lock cleared, debug UART,
   * HECI3 and device 4, audio, display and power settings from the
   * configuration.
   */
  lemma CopiedSettingsAfterHook(hooked: FspSConfig, config: ChipConfig, clkSrc: seq<UInt8>,
                                devices: map<DevFn, bool>, build: BuildOptions, xdciCanEnable: bool)
    requires config.Valid() && hooked.Valid() && |clkSrc| == PCIE_CLK_COUNT
    ensures var r := PostHookConfig(hooked, config, clkSrc, devices, build, xdciCanEnable);
            && r.PchLockDownRtcMemoryLock == 0
            && r.serialIo.SerialIoDebugUartNumber == build.uartForConsole
            && r.Heci3Enabled == config.Heci3Enabled
            && r.Device4Enable == config.Device4Enable
            && r.audio == AudioFromConfig(config)
            && r.display == DisplayFromConfig(config)
            && r.power == PowerFromConfig(config)
    ensures var r := PostHookConfig(hooked, config, clkSrc, devices, build, xdciCanEnable);
            && r.GraphicsConfigPtr == hooked.GraphicsConfigPtr
            && r.serialIo.SerialIoDevMode == hooked.serialIo.SerialIoDevMode
            && r.serialIo.SerialIoI2cMode == hooked.serialIo.SerialIoI2cMode
            && r.serialIo.SerialIoSpiMode == hooked.serialIo.SerialIoSpiMode
            && r.serialIo.SerialIoUartMode == hooked.serialIo.SerialIoUartMode
  {
  }

  /**
   * Serial IO after the callback (weak hook): the Cannon Lake layout holds
   * every controller's mode at its own offset; the Comet Lake layout holds
   * the I2C, SPI and UART modes at consecutive offsets of the same list, and
   * the two layouts agree.  The VBT address is stored.
   */
  lemma SerialIoAfterCallback(params: FspSConfig, config: ChipConfig, clkSrc: seq<UInt8>,
                              devices: map<DevFn, bool>, build: BuildOptions, vbt: UInt32, xdciCanEnable: bool)
    requires config.Valid() && params.Valid() && |clkSrc| == PCIE_CLK_COUNT
    ensures var r := SiliconInitConfig(params, config, clkSrc, devices, build, vbt, xdciCanEnable);
            !build.cometLake ==> forall i :: 0 <= i < SERIAL_IO_DEV_COUNT ==>
              r.serialIo.SerialIoDevMode[i] == GetParamValue(config, devices, i)
    ensures var r := SiliconInitConfig(params, config, clkSrc, devices, build, vbt, xdciCanEnable);
            build.cometLake ==>
              && (forall i :: 0 <= i < I2C_DEV_MAX ==> r.serialIo.SerialIoI2cMode[i] == GetParamValue(config, devices, i))
              && (forall i :: 0 <= i < GSPI_MAX ==>
                    r.serialIo.SerialIoSpiMode[i] == GetParamValue(config, devices, I2C_DEV_MAX + i))
              && (forall i :: 0 <= i < CML_UART_DEV_MAX ==>
                    r.serialIo.SerialIoUartMode[i] == GetParamValue(config, devices, I2C_DEV_MAX + GSPI_MAX + i))
              && r.serialIo.SerialIoI2cMode + r.serialIo.SerialIoSpiMode + r.serialIo.SerialIoUartMode
                 == SerialIoModes(config, devices, 0, SERIAL_IO_DEV_COUNT)
    ensures var r := SiliconInitConfig(params, config, clkSrc, devices, build, vbt, xdciCanEnable);
            r.GraphicsConfigPtr == vbt && r.serialIo.SerialIoDebugUartNumber == build.uartForConsole
  {
    var hooked := PreHookConfig(params, config, devices, vbt, build.cometLake);
    CopiedSettingsAfterHook(hooked, config, clkSrc, devices, build, xdciCanEnable);
    CmlLayoutMatchesDevMode(config, devices);
  }
}
