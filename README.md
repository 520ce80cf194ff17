# coreboot silicon-init parameter mapping and a microcode equivalence table, in Dafny

This project models two pieces of coreboot firmware and proves what they promise.

**Cannon Lake / Comet Lake silicon-init UPD mapping** (`src/soc/intel/cannonlake/fsp_params.c`).
Before FSP silicon initialisation, `platform_fsp_silicon_init_params_cb` fills the
`FSP_S_CONFIG` and `FSP_S_TEST_CONFIG` UPD blocks. It reads them from the chip
configuration (`config_t`) and from the device tree. The model:

- `cnl_types.dfy` (module `CnlTypes`) holds:
  - the PCH devices the mapper looks up;
  - the device tree, a `DeviceTree` object whose `slots` map a found device to its `enabled` flag;
  - the chip configuration, a record whose `PcieClkSrcUsage` table is a Dafny `array`, because the callback rewrites it in place;
  - the UPD blocks, as the `FspsUpd` object. The `FSP_S_CONFIG` fields are grouped into one record per section of the mapper and keep their UPD names.
    The record is the union of the Cannon Lake and Comet Lake layouts: it holds both builds' serial-IO mode fields and both `PchCnviMode` and `CnviMode`. In C only the build's own fields exist, so "the other layout's field is untouched" speaks about a field that one build does not have.
- `cnl_serial_io.dfy` (module `CnlSerialIo`) holds `get_param_value`, both layouts of `parse_devicetree_param`, and `parse_devicetree`.
- `cnl_pcie_clk.dfy` (module `CnlPcieClk`) holds the in-place normalisation of the PCIe clock-source table.
- `cnl_silicon_init.dfy` (module `CnlSiliconInit`) covers each section of the callback with two members:
  - a function giving the part of the UPD record that the section writes;
  - a method that performs the section's stores, proved to leave exactly that result.

  The callback itself is a method proved to leave `SiliconInitConfig`. That function is split at the mainboard hook into `PreHookConfig` and `PostHookConfig`.
- `cnl_silicon_init_properties.dfy` (module `CnlSiliconInitProperties`) states the mapper's rules as lemmas:
  - device enable fields;
  - xDCI gating;
  - USB over-current pins;
  - sparse overrides;
  - PCIe tables;
  - the serial-IO layouts.

  The rules applied after the hook are proved for *any* record a board's hook may leave behind.

**AMD family 16h (Kabini) microcode equivalence table**
(`src/vendorcode/amd/agesa/f16kb/Proc/CPU/Family/0x16/KB/F16KbEquivalenceTable.c`).
This is `f16kb_equivalence_table.dfy` (module `F16KbEquivalenceTable`). It holds the `stu1` table and the selector.
- The selector's two out-parameters are fields of a request object.
- When MSR bit 12 is clear, the selector writes neither field.
- When bit 12 is set, it writes the pair count and designates `stu1`.

The source documents `NumberOfElements` as the number of valid entries in the table (F16KbEquivalenceTable.c:99). The code computes `(sizeof(stu1) / sizeof(UINT16)) / 2`, which is 4 / 2 = 2. That counts (installed ID, equivalence ID) pairs, not 16-bit words, and the model follows the code.

Constants come from headers that are not part of this model:
- `PCH_SERIAL_IO_*`: NotInitialized 0, Disabled 1, Pci 2, Max 6.
- `PCIE_CLK_NOTUSED` = 0xFF.
- `IGN_GBE` = bit 3.
- The array sizes:
  - 12 serial-IO controllers, split 6/3/3 in the Comet Lake layout;
  - 16 USB 2 ports and 10 USB 3 ports in the UPD;
  - the board's `usb2_ports[]` and `usb3_ports[]` arrays, taken to be at most that long. The mapper's loops run over every slot of these fixed-size arrays, so the model's port sequences stand for whole arrays. A length below 16 or 10 is a generalisation, and the lemmas about slots past these arrays say something only when a board's array is shorter than the UPD's;
  - 8 SATA ports;
  - 16 clock sources;
  - 24 root ports.
- The width of `psys_pmax` and `PsysPmax`: 16 bits, so the store of `psys_pmax * 8` truncates modulo 0x10000.
- The width of `tcc_offset`: 32 bits; of `TccActivationOffset`: 8 bits, so its store keeps the low byte (modulo 0x100).
- The other scalar UPD and configuration fields the mapper copies: 8 bits, except the 32-bit `GraphicsConfigPtr` and the 32-bit VBT address.

The proofs use only these properties of them:
- the relative order of the serial-IO enum values;
- that `PCIE_CLK_NOTUSED` is non-zero;
- that the sizes within one block agree.

## Model

| member | source | states |
|---|---|---|
| CnlTypes.FlagByte | src/soc/intel/cannonlake/fsp_params.c:162 | a one-bit `enabled` flag stored in a UPD byte is 0 or 1, and 1 exactly when the flag is set |
| CnlTypes.DeviceEnable | src/soc/intel/cannonlake/fsp_params.c:158-162 | an enable field is 0 when `dev_find_slot` finds no device; for a found device it is 1 exactly when the device is enabled |
| CnlSerialIo.SerialIoIndex | src/soc/intel/cannonlake/fsp_params.c:43-47 | the enum-to-UPD shift by one maps every valid mode below the enum's end |
| CnlSerialIo.GetParamValue | src/soc/intel/cannonlake/fsp_params.c:49-65 | absent or disabled controller gives Disabled; uninitialised or out-of-range mode gives Pci; otherwise the configured mode, shifted by one; the result always encodes a valid mode |
| CnlSerialIo.GetParamValueMeaning | src/soc/intel/cannonlake/fsp_params.c:49-65 | reading the value back: "disabled" iff the controller is absent, disabled or configured disabled; "PCI" iff it is enabled and configured PCI or has no usable mode |
| CnlSerialIo.GetParamValueIsLocal | src/soc/intel/cannonlake/fsp_params.c:53-58 | the value for one offset depends only on that controller's presence, flag and configured mode |
| CnlSerialIo.SerialIoModes | src/soc/intel/cannonlake/fsp_params.c:92-93 | the modes of consecutive controllers: entry i is `get_param_value` at offset start+i |
| CnlSerialIo.ParsedSerialIo | src/soc/intel/cannonlake/fsp_params.c:67-95 | the parse keeps the arrays' sizes and the debug UART number, and never touches the other layout's arrays |
| CnlSerialIo.CmlLayoutMatchesDevMode | src/soc/intel/cannonlake/fsp_params.c:70-87 | the Comet Lake I2C, SPI and UART modes, laid end to end, are exactly the Cannon Lake per-controller modes, because the three loops share one running offset |
| CnlSerialIo.ParseDevicetreeParam | src/soc/intel/cannonlake/fsp_params.c:90-94 | the Cannon Lake loop leaves `SerialIoDevMode[i]` = mode of controller i for all 12, nothing else changed |
| CnlSerialIo.ParseDevicetreeParamCml | src/soc/intel/cannonlake/fsp_params.c:68-88 | the three Comet Lake loops leave I2C, SPI and UART modes at offsets 0..5, 6..8, 9..11, nothing else changed |
| CnlSerialIo.ParseDevicetree | src/soc/intel/cannonlake/fsp_params.c:97-108 | without a root device nothing is written; otherwise the build's layout is filled |
| CnlPcieClk.NormalizedClkSrcUsage | src/soc/intel/cannonlake/fsp_params.c:272-275 | the whole clock-source table after the loop: same length, no zero entry, non-zero entries kept, zero entries become `PCIE_CLK_NOTUSED` |
| CnlPcieClk.NormalizedClkSrc | src/soc/intel/cannonlake/fsp_params.c:273-274 | a normalised entry is never 0 and a non-zero entry is kept |
| CnlPcieClk.NormalizedClkSrcUsageAt | src/soc/intel/cannonlake/fsp_params.c:272-275 | normalisation acts on each table entry alone |
| CnlPcieClk.NormalizedClkSrcUsageSpec | src/soc/intel/cannonlake/fsp_params.c:272-275 | after normalisation: no zero entry, non-zero entries kept, zero entries become `PCIE_CLK_NOTUSED` |
| CnlPcieClk.NormalizedClkSrcUsageFixedPoints | src/soc/intel/cannonlake/fsp_params.c:272-275 | a table is unchanged by normalisation iff it has no zero entry |
| CnlPcieClk.NormalizedClkSrcUsageIdempotent | src/soc/intel/cannonlake/fsp_params.c:272-275 | normalising twice is normalising once |
| CnlPcieClk.NormalizePcieClkSrcUsage | src/soc/intel/cannonlake/fsp_params.c:272-275 | the in-place loop leaves the array equal to the normalised old contents |
| CnlSiliconInit.SparseOverride | src/soc/intel/cannonlake/fsp_params.c:340-348 | a zero configured value keeps the prior UPD value, a non-zero one replaces it; the result is 0 only if both are |
| CnlSiliconInit.PsysPmaxUnits | src/soc/intel/cannonlake/fsp_params.c:150-151 | watts times 8, truncated to 16 bits; exact for powers below 0x2000 W |
| CnlSiliconInit.TccOffsetByte | src/soc/intel/cannonlake/fsp_params.c:350-351 | the 32-bit `tcc_offset` stored into the 8-bit UPD field: equal modulo 0x100, and unchanged when it is below 0x100 |
| CnlSiliconInit.PsysPmaxUnitsRoundTrip | src/soc/intel/cannonlake/fsp_params.c:150-151 | a power that fits converts back: the units are a multiple of 8 and divided by 8 give the watts |
| CnlSiliconInit.XdciGate | src/soc/intel/cannonlake/fsp_params.c:246-250 | the xDCI step keeps the set of found devices and every other device's flag |
| CnlSiliconInit.XdciEnableRule | src/soc/intel/cannonlake/fsp_params.c:246-253 | `XdciEnable` is 1 iff the controller is present, enabled and allowed, and at most 1 |
| CnlSiliconInit.XdciGateKeepsOtherDevices | src/soc/intel/cannonlake/fsp_params.c:247-250 | the gate does not change any other device's enable field |
| CnlSiliconInit.IgnoreGbeLtr | src/soc/intel/cannonlake/fsp_params.c:111-119 | read-modify-write: `LTR_IGN` becomes its old value with `IGN_GBE` set |
| CnlSiliconInit.LtrIgnAfterLan | src/soc/intel/cannonlake/fsp_params.c:171-184 | after the LAN section `IGN_GBE` is set iff the GbE S0ix settings applied or it was already set; no other bit changes |
| CnlSiliconInit.IgnGbeSetsOnlyItsBit | src/soc/intel/cannonlake/fsp_params.c:116-118 | or-ing in `IGN_GBE` sets that bit, keeps all others, and is idempotent |
| CnlSiliconInit.Zeros | src/soc/intel/cannonlake/fsp_params.c:217-218 | a zero-filled table of the given length |
| CnlSiliconInit.ClearedOverCurrentPins | src/soc/intel/cannonlake/fsp_params.c:136-143 | every USB 2 and USB 3 over-current pin becomes 0, the pin tables keep their sizes, and no other field changes |
| CnlSiliconInit.ClearOverCurrentPins | src/soc/intel/cannonlake/fsp_params.c:136-143 | both clearing loops leave every USB 2 and USB 3 over-current pin 0, nothing else changed |
| CnlSiliconInit.MainboardSiliconInitParams | src/soc/intel/cannonlake/fsp_params.c:357-361 | the weak default hook, allowed to write the UPD block, leaves it unchanged |
| CnlSiliconInit.PreHookConfig | src/soc/intel/cannonlake/fsp_params.c:130-143 | the record handed to the hook (parsed modes, VBT address, cleared pins) keeps the block's array sizes |
| CnlSiliconInit.SataSection | src/soc/intel/cannonlake/fsp_params.c:157-169 | SATA enable follows the device tree; mode, SALP and port tables are copied only for a present controller; an absent one leaves them alone |
| CnlSiliconInit.ConfigureSata | src/soc/intel/cannonlake/fsp_params.c:157-169 | the SATA stores leave exactly `SataSection`, nothing else changed |
| CnlSiliconInit.LanSection | src/soc/intel/cannonlake/fsp_params.c:171-184 | LAN enable follows the tree; with S0ix and a present controller the four GbE S0 settings are written, otherwise only the enable |
| CnlSiliconInit.ConfigureLan | src/soc/intel/cannonlake/fsp_params.c:171-184 | the LAN stores leave `LanSection`, and `LTR_IGN` is `LtrIgnAfterLan` of its old value |
| CnlSiliconInit.AudioFromConfig | src/soc/intel/cannonlake/fsp_params.c:186-197 | the DSP enable and the nine audio-link enables are the configuration's |
| CnlSiliconInit.DisplayFromConfig | src/soc/intel/cannonlake/fsp_params.c:199-212 | the eDP selection and the HPD and DDC settings of DDI ports B, C, D and F are the configuration's |
| CnlSiliconInit.ConfigureAudioAndDisplay | src/soc/intel/cannonlake/fsp_params.c:186-212 | the audio, eDP, HPD and DDC fields all become the configuration's values, nothing else changed |
| CnlSiliconInit.Usb2PortWritten | src/soc/intel/cannonlake/fsp_params.c:221-228 | one loop iteration: port i's enable, over-current pin and four AFE settings are the port's; every other port and every table size is unchanged |
| CnlSiliconInit.Usb2Section | src/soc/intel/cannonlake/fsp_params.c:220-229 | the USB 2 loop keeps every port table's size |
| CnlSiliconInit.Usb2SectionAt | src/soc/intel/cannonlake/fsp_params.c:220-229 | after the USB 2 loop, each port of the configuration's array has its six settings from the configuration; entries past that array are unchanged |
| CnlSiliconInit.ConfigureUsb2Ports | src/soc/intel/cannonlake/fsp_params.c:220-229 | the USB 2 loop leaves exactly `Usb2Section` of the configuration's port array |
| CnlSiliconInit.Usb3PortWritten | src/soc/intel/cannonlake/fsp_params.c:232-243 | one loop iteration: port i's enable and pin are the port's; a non-zero de-emphasis or downscale value is written with its enable bit 1, a zero one leaves both; every other port and every table size is unchanged |
| CnlSiliconInit.Usb3Section | src/soc/intel/cannonlake/fsp_params.c:231-244 | the USB 3 loop keeps every port table's size |
| CnlSiliconInit.Usb3SectionAt | src/soc/intel/cannonlake/fsp_params.c:231-244 | after the USB 3 loop: each port of the configuration's array has its enable and pin; de-emphasis and downscale are sparse overrides, enable bit 1 iff written; later entries unchanged |
| CnlSiliconInit.ConfigureUsb3Ports | src/soc/intel/cannonlake/fsp_params.c:231-244 | the USB 3 loop leaves exactly `Usb3Section` of the configuration's port array |
| CnlSiliconInit.ConfigureXdci | src/soc/intel/cannonlake/fsp_params.c:246-253 | the tree's xDCI flag is cleared when not allowed, and `XdciEnable` follows the resulting tree |
| CnlSiliconInit.CnviSection | src/soc/intel/cannonlake/fsp_params.c:259-270 | Comet Lake writes `CnviMode`, Cannon Lake `PchCnviMode`, each as the Wi-Fi device's enable flag; nothing else changes |
| CnlSiliconInit.ConfigureCnvi | src/soc/intel/cannonlake/fsp_params.c:258-270 | the CNVi mode of the build's layout follows the device tree, the other layout's field is untouched |
| CnlSiliconInit.PcieSection | src/soc/intel/cannonlake/fsp_params.c:276-283 | the normalised clock-source table and the clock-request, LTR and hot-plug tables are the configuration's; `PcieRpPmSci` is kept; table sizes agree with the UPD's |
| CnlSiliconInit.ConfigurePcie | src/soc/intel/cannonlake/fsp_params.c:271-283 | the configuration's clock table is normalised in place, then it and the clock-request, LTR and hot-plug tables are copied |
| CnlSiliconInit.EmmcSection | src/soc/intel/cannonlake/fsp_params.c:285-299 | eMMC enable follows the tree; for a present controller, HS400 and DLL-valid are copied, and the DLL values too when `EmmcHs400DllNeed == 1`; otherwise they are kept |
| CnlSiliconInit.ConfigureEmmc | src/soc/intel/cannonlake/fsp_params.c:285-299 | the eMMC stores leave exactly `EmmcSection` |
| CnlSiliconInit.SdCardSection | src/soc/intel/cannonlake/fsp_params.c:301-308 | SD enable follows the tree; the power-enable polarity is written only for a present controller; no other storage field changes |
| CnlSiliconInit.ConfigureSdCard | src/soc/intel/cannonlake/fsp_params.c:301-308 | the SD stores leave exactly `SdCardSection` |
| CnlSiliconInit.StorageSection | src/soc/intel/cannonlake/fsp_params.c:285-314 | after eMMC, SD and UFS, each of the three enable fields follows the device tree |
| CnlSiliconInit.ConfigureUfs | src/soc/intel/cannonlake/fsp_params.c:310-314 | UFS enable follows the device tree, nothing else changed |
| CnlSiliconInit.PowerFromConfig | src/soc/intel/cannonlake/fsp_params.c:325-338 | the acoustic-noise, slow-slew-rate and fast-PkgC-ramp fields are the configuration's; `PchPwrOptEnable` is `dmipwroptimize` and `SataPwrOptEnable` is `satapwroptimize` |
| CnlSiliconInit.ConfigurePower | src/soc/intel/cannonlake/fsp_params.c:325-338 | the acoustic and power optimizer fields become the configuration's values, nothing else changed |
| CnlSiliconInit.SlpMinAssertSection | src/soc/intel/cannonlake/fsp_params.c:340-348 | each of the S3, S4, SUS and A minimum-assertion widths keeps its prior value when configured 0 and is replaced otherwise; `PchPmSlpS0Enable` is kept |
| CnlSiliconInit.ConfigureSlpMinAssert | src/soc/intel/cannonlake/fsp_params.c:340-348 | each of the four sleep-signal widths becomes `SparseOverride` of its prior value |
| CnlSiliconInit.SetPsysPmax | src/soc/intel/cannonlake/fsp_params.c:147-152 | `PsysPmax` is written in 1/8 W units only when the configured power is non-zero |
| CnlSiliconInit.EarlySections | src/soc/intel/cannonlake/fsp_params.c:154-253 | the sections from the RTC lock to xDCI keep the block's array sizes |
| CnlSiliconInit.LateSections | src/soc/intel/cannonlake/fsp_params.c:255-348 | the sections from the debug UART to the sleep-signal widths keep the block's array sizes |
| CnlSiliconInit.PostHookConfig | src/soc/intel/cannonlake/fsp_params.c:154-348 | everything after the hook, applied to any well-shaped record the hook leaves, keeps the array sizes |
| CnlSiliconInit.SiliconInitConfig | src/soc/intel/cannonlake/fsp_params.c:122-355 | the whole callback's `FSP_S_CONFIG` keeps the array sizes |
| CnlSiliconInit.TestConfigSection | src/soc/intel/cannonlake/fsp_params.c:147-152 | `PsysPmax` is kept for 0 W, otherwise `PsysPmaxUnits`, exact `watts*8` (and back by /8) below 0x2000 W; the TCC offset's low byte (`TccOffsetByte`) and the GPIO unlock (lines 350-354) are stored |
| CnlSiliconInit.PrepareForHook | src/soc/intel/cannonlake/fsp_params.c:130-143 | the stores before the hook leave exactly `PreHookConfig` |
| CnlSiliconInit.ApplyEarlySections | src/soc/intel/cannonlake/fsp_params.c:154-253 | the stores from the RTC lock to xDCI leave `EarlySections`, gate the xDCI flag and set `LTR_IGN` per `LtrIgnAfterLan` |
| CnlSiliconInit.ApplyLateSections | src/soc/intel/cannonlake/fsp_params.c:255-348 | the stores from the debug UART on leave `LateSections` and normalise the configuration's clock table |
| CnlSiliconInit.PlatformFspSiliconInitParamsCb | src/soc/intel/cannonlake/fsp_params.c:122-355 | the callback leaves `SiliconInitConfig` and `TestConfigSection`, the gated tree, the normalised clock table and `LTR_IGN` per `LtrIgnAfterLan` |
| CnlSiliconInitProperties.SataLanEnableFields | src/soc/intel/cannonlake/fsp_params.c:157-176 | whatever the hook did, `SataEnable` and `PchLanEnable` are 0 for an absent device and its flag otherwise |
| CnlSiliconInitProperties.StorageEnableFields | src/soc/intel/cannonlake/fsp_params.c:285-314 | whatever the hook did, the eMMC, SD and UFS enables follow the tree the callback was given; the xDCI step does not disturb them |
| CnlSiliconInitProperties.CnviModeAfterHook | src/soc/intel/cannonlake/fsp_params.c:258-270 | the build's CNVi field follows the tree, the other layout's field keeps the hook's value |
| CnlSiliconInitProperties.XdciEnableAfterCallback | src/soc/intel/cannonlake/fsp_params.c:246-253 | `XdciEnable` is 1 iff the controller is present, enabled and allowed, and at most 1 |
| CnlSiliconInitProperties.ConfiguredPortsAfterHook | src/soc/intel/cannonlake/fsp_params.c:220-233 | whatever the hook wrote, every USB 2 and USB 3 port of the configuration's arrays has its over-current pin and enable from the configuration |
| CnlSiliconInitProperties.PortsPastConfigArrayKeptAfterHook | src/soc/intel/cannonlake/fsp_params.c:220-244 | past the configuration's port arrays (when shorter than the UPD's), USB pins and enables are what the hook left |
| CnlSiliconInitProperties.Usb3HsioSparseAfterHook | src/soc/intel/cannonlake/fsp_params.c:234-243 | USB 3 HSIO de-emphasis and downscale are sparse overrides of the hook's values, with enable bit set when written and kept otherwise |
| CnlSiliconInitProperties.OverCurrentPinsPastConfigArrayCleared | src/soc/intel/cannonlake/fsp_params.c:136-145 | with the weak hook, the pins past the configuration's port arrays (when shorter than the UPD's) stay 0 |
| CnlSiliconInitProperties.PcieTablesAfterHook | src/soc/intel/cannonlake/fsp_params.c:217-283 | UPD clock table is the normalised configuration table (no zeros, non-zeros kept, zeros become NOTUSED); `PcieRpPmSci` all 0; clock-request, LTR, hot-plug copied |
| CnlSiliconInitProperties.PcieClkSrcStable | src/soc/intel/cannonlake/fsp_params.c:272-277 | running the mapping again on the already-normalised configuration table copies the same UPD table |
| CnlSiliconInitProperties.PmSettingsAfterHook | src/soc/intel/cannonlake/fsp_params.c:340-348 | the four sleep-signal widths are sparse overrides of the hook's values; `PchPmSlpS0Enable` (line 215) is the S0ix switch |
| CnlSiliconInitProperties.LanSettingsAfterHook | src/soc/intel/cannonlake/fsp_params.c:171-184 | with S0ix and a present LAN the four GbE S0 settings are written; otherwise the hook's LAN values are kept apart from the enable |
| CnlSiliconInitProperties.StorageSettingsAfterHook | src/soc/intel/cannonlake/fsp_params.c:285-308 | the eMMC HS400 settings, DLL values and SD polarity are written under exactly the source's conditions and kept otherwise |
| CnlSiliconInitProperties.CopiedSettingsAfterHook | src/soc/intel/cannonlake/fsp_params.c:154-338 | RTC lock 0, debug UART, HECI3 and device 4 come from the build or configuration; the whole audio, display and power groups are `AudioFromConfig`, `DisplayFromConfig` and `PowerFromConfig` of the configuration; graphics pointer and serial-IO modes are the hook's |
| CnlSiliconInitProperties.SerialIoAfterCallback | src/soc/intel/cannonlake/fsp_params.c:122-134 | after the callback, each layout's serial-IO modes are `get_param_value` at the right offsets and the two layouts agree; the VBT address and debug UART are stored |
| F16KbEquivalenceTable.PairCount | src/vendorcode/amd/agesa/f16kb/Proc/CPU/Family/0x16/KB/F16KbEquivalenceTable.c:116 | entries divided by 2: twice the count covers an even table exactly and never exceeds it |
| F16KbEquivalenceTable.Pairs | src/vendorcode/amd/agesa/f16kb/Proc/CPU/Family/0x16/KB/F16KbEquivalenceTable.c:84-88 | pair k is entries 2k and 2k+1, both in bounds, for every k below the count |
| F16KbEquivalenceTable.Stu1Pairs | src/vendorcode/amd/agesa/f16kb/Proc/CPU/Family/0x16/KB/F16KbEquivalenceTable.c:84-88 | `stu1` has count 2, which fits a `UINT8`, and its pairs are (0x7001, 0x7001) and (0x7000, 0x7000) |
| F16KbEquivalenceTable.Stu1CountCoversTable | src/vendorcode/amd/agesa/f16kb/Proc/CPU/Family/0x16/KB/F16KbEquivalenceTable.c:116 | count times 2 is the table length, so indices 2k and 2k+1 for k below the count stay in bounds |
| F16KbEquivalenceTable.SelectedTable | src/vendorcode/amd/agesa/f16kb/Proc/CPU/Family/0x16/KB/F16KbEquivalenceTable.c:113-118 | a table is selected iff bit 12 is set, and then it is `stu1`'s pairs with count * 2 == length |
| F16KbEquivalenceTable.SelectionDependsOnlyOnBit12 | src/vendorcode/amd/agesa/f16kb/Proc/CPU/Family/0x16/KB/F16KbEquivalenceTable.c:114 | two MSR values that agree on bit 12 select the same outcome |
| F16KbEquivalenceTable.GetF16KbMicrocodeEquivalenceTable | src/vendorcode/amd/agesa/f16kb/Proc/CPU/Family/0x16/KB/F16KbEquivalenceTable.c:104-119 | bit 12 clear: neither out-slot is written; set: count 2 and the pointer designates `stu1`, as `SelectedTable` says |

## Left out

- Console output (`printk`) is not modelled. This includes the weak `mainboard_silicon_init_params`, which only logs; `MainboardSiliconInitParams` may write the UPD block and is proved to change nothing.
- Board-specific hooks are not modelled. The post-hook lemmas cover every well-shaped record a hook may leave.
- `vbt_get()` is a parameter, the 32-bit VBT address. The `uintptr_t` truncation of a wider pointer is not modelled.
- `xdci_can_enable()` is a boolean parameter.
- `CONFIG_UART_FOR_CONSOLE`, `CONFIG(SOC_INTEL_COMETLAKE)` and `CONFIG(MB_HAS_ACTIVE_HIGH_SD_PWR_ENABLE)` are the `BuildOptions` record.
- `fill_vr_domain_config` and the VR-domain loop (lines 319-323) are not modelled: the function's body is not part of this model.
- `dev_find_slot` is a lookup in the `DeviceTree` map. PCI device/function numbers, bus 0 and the device structures themselves are not modelled.
- `SA_DEV_ROOT` is taken to exist in the callback, since the callback dereferences it without a check. `parse_devicetree` takes it as an `Option`, because that function does check.
- `pmc_mmio_regs()`, `read8` and `write8` are not modelled. `LTR_IGN` is a byte field of a `PmcRegisters` object.
- `memcpy`/`memset` byte sizes are not modelled. Struct layouts are not modelled either: tables are sequences of equal length.
- `PlatformFspSiliconInitParamsCb` requires the configuration's and the UPD block's array sizes to agree. In C this holds by the type definitions.
- `LibAmdMsrRead` is not modelled; the value read from MSR 0xC0011029 is a `bv64` parameter.
- `FamilySpecificServices` and `StdHeader` are not modelled; the selector does not use them beyond the MSR read.
- The pointer returned by the AMD selector is modelled as the table's contents (`Some(STU1)`), not as an address.
- `src/mainboard/intel/icelake_rvp/romstage_fsp_params.c` is not part of this model. Its `mainboard_memory_init_params` has an empty body.
