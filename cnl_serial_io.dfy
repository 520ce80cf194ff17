/**
 * Serial-IO mode mapping of src/soc/intel/cannonlake/fsp_params.c:
 * `get_param_value`, the two layouts of `parse_devicetree_param` (Cannon Lake
 * and Comet Lake) and `parse_devicetree`.
 */
module CnlSerialIo {
  import opened CnlTypes

  // PCH_SERIAL_IO_MODE.  The header defining its values is not part of this
  // model; the code relies on NotInitialized < Disabled < Pci < Max with the
  // valid modes starting at 1, and so does every proof here.
  const PCH_SERIAL_IO_NOT_INITIALIZED: UInt8 := 0
  const PCH_SERIAL_IO_DISABLED: UInt8 := 1
  const PCH_SERIAL_IO_PCI: UInt8 := 2
  const PCH_SERIAL_IO_MAX: UInt8 := 6

  /** A configured mode the FSP understands: initialised and below the enum's end. */
  predicate ValidSerialIoMode(mode: UInt8) {
    mode != PCH_SERIAL_IO_NOT_INITIALIZED && mode < PCH_SERIAL_IO_MAX
  }

  /** `PCH_SERIAL_IO_INDEX`: enum value to UPD value, since valid enum values start at 1. */
  function SerialIoIndex(mode: UInt8): (v: UInt8)
    requires ValidSerialIoMode(mode)
    ensures v < PCH_SERIAL_IO_MAX - 1
  {
    mode - 1
  }

  /** The serial-IO controller at `devOffset` is in the device tree and enabled. */
  predicate SerialIoDevEnabled(devices: map<DevFn, bool>, devOffset: nat)
    requires devOffset < |SERIAL_IO_DEV|
  {
    SERIAL_IO_DEV[devOffset] in devices && devices[SERIAL_IO_DEV[devOffset]]
  }

  /**
   * `get_param_value`: the UPD serial-IO mode of controller `devOffset`.
   * An absent or disabled controller is reported disabled; an enabled one
   * with an uninitialised or out-of-range mode falls back to PCI mode;
   * otherwise the configured mode is passed on.  The result is always the
   * UPD encoding of a valid mode, and it reads "disabled" or "PCI" exactly
   * in the situations that call for it.
   */
  function GetParamValue(config: ChipConfig, devices: map<DevFn, bool>, devOffset: nat): (v: UInt8)
    requires devOffset < |SERIAL_IO_DEV| && devOffset < |config.SerialIoDevMode|
    ensures v < PCH_SERIAL_IO_MAX - 1 && ValidSerialIoMode(v + 1)
    ensures !SerialIoDevEnabled(devices, devOffset) ==> v == SerialIoIndex(PCH_SERIAL_IO_DISABLED)
    ensures (SerialIoDevEnabled(devices, devOffset) && !ValidSerialIoMode(config.SerialIoDevMode[devOffset]))
            ==> v == SerialIoIndex(PCH_SERIAL_IO_PCI)
    ensures (SerialIoDevEnabled(devices, devOffset) && ValidSerialIoMode(config.SerialIoDevMode[devOffset]))
            ==> v + 1 == config.SerialIoDevMode[devOffset]
  {
    if !SerialIoDevEnabled(devices, devOffset) then
      SerialIoIndex(PCH_SERIAL_IO_DISABLED)
    else if config.SerialIoDevMode[devOffset] >= PCH_SERIAL_IO_MAX
         || config.SerialIoDevMode[devOffset] == PCH_SERIAL_IO_NOT_INITIALIZED then
      SerialIoIndex(PCH_SERIAL_IO_PCI)
    else
      SerialIoIndex(config.SerialIoDevMode[devOffset])
  }

  /**
   * Reading the UPD value back: it says "disabled" exactly when the controller
   * is absent, disabled in the tree or configured disabled, and "PCI" exactly
   * when an enabled controller is configured for PCI or has no usable mode.
   */
  lemma GetParamValueMeaning(config: ChipConfig, devices: map<DevFn, bool>, devOffset: nat)
    requires devOffset < |SERIAL_IO_DEV| && devOffset < |config.SerialIoDevMode|
    ensures GetParamValue(config, devices, devOffset) == SerialIoIndex(PCH_SERIAL_IO_DISABLED)
            <==> (!SerialIoDevEnabled(devices, devOffset)
                  || config.SerialIoDevMode[devOffset] == PCH_SERIAL_IO_DISABLED)
    ensures GetParamValue(config, devices, devOffset) == SerialIoIndex(PCH_SERIAL_IO_PCI)
            <==> (SerialIoDevEnabled(devices, devOffset)
                  && (!ValidSerialIoMode(config.SerialIoDevMode[devOffset])
                      || config.SerialIoDevMode[devOffset] == PCH_SERIAL_IO_PCI))
  {
  }

  /**
   * The value for one controller depends on that controller's presence and
   * configured mode only: the rest of the device tree and of the mode array
   * cannot influence it.
   */
  lemma GetParamValueIsLocal(c1: ChipConfig, d1: map<DevFn, bool>, c2: ChipConfig, d2: map<DevFn, bool>, devOffset: nat)
    requires devOffset < |SERIAL_IO_DEV|
    requires devOffset < |c1.SerialIoDevMode| && devOffset < |c2.SerialIoDevMode|
    requires c1.SerialIoDevMode[devOffset] == c2.SerialIoDevMode[devOffset]
    requires SERIAL_IO_DEV[devOffset] in d1 <==> SERIAL_IO_DEV[devOffset] in d2
    requires SERIAL_IO_DEV[devOffset] in d1 ==> d1[SERIAL_IO_DEV[devOffset]] == d2[SERIAL_IO_DEV[devOffset]]
    ensures GetParamValue(c1, d1, devOffset) == GetParamValue(c2, d2, devOffset)
  {
  }

  /** The UPD modes of `count` consecutive controllers of `serial_io_dev[]`, from offset `start` on. */
  function SerialIoModes(config: ChipConfig, devices: map<DevFn, bool>, start: nat, count: nat): (modes: seq<UInt8>)
    requires config.Valid() && start + count <= SERIAL_IO_DEV_COUNT
    ensures |modes| == count
    ensures forall i :: 0 <= i < count ==> modes[i] == GetParamValue(config, devices, start + i)
  {
    seq<UInt8>(count, i requires 0 <= i < count => GetParamValue(config, devices, start + i))
  }

  /**
   * What `parse_devicetree_param` leaves in the UPD record.  A Cannon Lake
   * build fills `SerialIoDevMode` for all of `serial_io_dev[]`; a Comet Lake
   * build fills the I2C, SPI and UART arrays from consecutive offsets.  The
   * other layout's arrays, and every other field, are untouched.
   */
  function ParsedSerialIo(io: SerialIoUpd, config: ChipConfig, devices: map<DevFn, bool>, cometLake: bool): (r: SerialIoUpd)
    requires config.Valid()
    ensures io.Shape() ==> r.Shape()
    ensures r.SerialIoDebugUartNumber == io.SerialIoDebugUartNumber
    ensures cometLake ==> r.SerialIoDevMode == io.SerialIoDevMode
    ensures !cometLake ==> && r.SerialIoI2cMode == io.SerialIoI2cMode
                           && r.SerialIoSpiMode == io.SerialIoSpiMode
                           && r.SerialIoUartMode == io.SerialIoUartMode
  {
    if cometLake then
      io.(SerialIoI2cMode := SerialIoModes(config, devices, 0, I2C_DEV_MAX),
          SerialIoSpiMode := SerialIoModes(config, devices, I2C_DEV_MAX, GSPI_MAX),
          SerialIoUartMode := SerialIoModes(config, devices, I2C_DEV_MAX + GSPI_MAX, CML_UART_DEV_MAX))
    else
      io.(SerialIoDevMode := SerialIoModes(config, devices, 0, SERIAL_IO_DEV_COUNT))
  }

  /**
   * The Comet Lake split covers `serial_io_dev[]` exactly: laid end to end,
   * its I2C, SPI and UART modes are the Cannon Lake `SerialIoDevMode` array.
   */
  lemma CmlLayoutMatchesDevMode(config: ChipConfig, devices: map<DevFn, bool>)
    requires config.Valid()
    ensures SerialIoModes(config, devices, 0, I2C_DEV_MAX)
            + SerialIoModes(config, devices, I2C_DEV_MAX, GSPI_MAX)
            + SerialIoModes(config, devices, I2C_DEV_MAX + GSPI_MAX, CML_UART_DEV_MAX)
            == SerialIoModes(config, devices, 0, SERIAL_IO_DEV_COUNT)
  {
    var i2c := SerialIoModes(config, devices, 0, I2C_DEV_MAX);
    var spi := SerialIoModes(config, devices, I2C_DEV_MAX, GSPI_MAX);
    var uart := SerialIoModes(config, devices, I2C_DEV_MAX + GSPI_MAX, CML_UART_DEV_MAX);
    var whole := i2c + spi + uart;
    var devMode := SerialIoModes(config, devices, 0, SERIAL_IO_DEV_COUNT);
    forall k | 0 <= k < SERIAL_IO_DEV_COUNT
      ensures whole[k] == devMode[k]
    {
      if k < I2C_DEV_MAX {
        assert whole[k] == i2c[k];
      } else if k < I2C_DEV_MAX + GSPI_MAX {
        assert whole[k] == spi[k - I2C_DEV_MAX];
      } else {
        assert whole[k] == uart[k - I2C_DEV_MAX - GSPI_MAX];
      }
    }
  }

  /**
   * `parse_devicetree_param`, Cannon Lake layout: the mode of every controller
   * of `serial_io_dev[]` goes to `SerialIoDevMode` at the same offset.
   */
  method ParseDevicetreeParam(config: ChipConfig, devices: map<DevFn, bool>, supd: FspsUpd)
    requires config.Valid() && supd.FspsConfig.serialIo.Shape()
    modifies supd`FspsConfig
    ensures supd.FspsConfig == old(supd.FspsConfig).(serialIo := ParsedSerialIo(old(supd.FspsConfig.serialIo), config, devices, false))
  {
    ghost var before := supd.FspsConfig;
    ghost var io := before.serialIo;
    ghost var modes := SerialIoModes(config, devices, 0, SERIAL_IO_DEV_COUNT);
    for i := 0 to |SERIAL_IO_DEV|
      invariant supd.FspsConfig == before.(serialIo := io.(SerialIoDevMode := Overlay(io.SerialIoDevMode, modes[..i])))
    {
      OverlayStep(io.SerialIoDevMode, modes[..i], modes[i]);
      assert modes[..i + 1] == modes[..i] + [modes[i]];
      supd.FspsConfig := supd.FspsConfig.(serialIo := supd.FspsConfig.serialIo.(
        SerialIoDevMode := supd.FspsConfig.serialIo.SerialIoDevMode[i := GetParamValue(config, devices, i)]));
    }
    assert modes[..SERIAL_IO_DEV_COUNT] == modes;
    OverlayWhole(io.SerialIoDevMode, modes);
  }

  /**
   * `parse_devicetree_param`, Comet Lake layout: three loops share one running
   * `dev_offset`, so the I2C, SPI and UART modes take consecutive offsets of
   * `serial_io_dev[]`.
   */
  method ParseDevicetreeParamCml(config: ChipConfig, devices: map<DevFn, bool>, supd: FspsUpd)
    requires config.Valid() && supd.FspsConfig.serialIo.Shape()
    modifies supd`FspsConfig
    ensures supd.FspsConfig == old(supd.FspsConfig).(serialIo := ParsedSerialIo(old(supd.FspsConfig.serialIo), config, devices, true))
  {
    ghost var before := supd.FspsConfig;
    ghost var io := before.serialIo;
    ghost var i2c := SerialIoModes(config, devices, 0, I2C_DEV_MAX);
    ghost var spi := SerialIoModes(config, devices, I2C_DEV_MAX, GSPI_MAX);
    ghost var uart := SerialIoModes(config, devices, I2C_DEV_MAX + GSPI_MAX, CML_UART_DEV_MAX);
    var devOffset := 0;
    var i := 0;
    while i < I2C_DEV_MAX
      invariant 0 <= i <= I2C_DEV_MAX && devOffset == i
      invariant supd.FspsConfig == before.(serialIo := io.(SerialIoI2cMode := Overlay(io.SerialIoI2cMode, i2c[..i])))
    {
      OverlayStep(io.SerialIoI2cMode, i2c[..i], i2c[i]);
      assert i2c[..i + 1] == i2c[..i] + [i2c[i]];
      supd.FspsConfig := supd.FspsConfig.(serialIo := supd.FspsConfig.serialIo.(
        SerialIoI2cMode := supd.FspsConfig.serialIo.SerialIoI2cMode[i := GetParamValue(config, devices, devOffset)]));
      i, devOffset := i + 1, devOffset + 1;
    }
    assert i2c[..I2C_DEV_MAX] == i2c;
    OverlayWhole(io.SerialIoI2cMode, i2c);
    i := 0;
    while i < GSPI_MAX
      invariant 0 <= i <= GSPI_MAX && devOffset == I2C_DEV_MAX + i
      invariant supd.FspsConfig == before.(serialIo := io.(SerialIoI2cMode := i2c,
                                                        SerialIoSpiMode := Overlay(io.SerialIoSpiMode, spi[..i])))
    {
      OverlayStep(io.SerialIoSpiMode, spi[..i], spi[i]);
      assert spi[..i + 1] == spi[..i] + [spi[i]];
      supd.FspsConfig := supd.FspsConfig.(serialIo := supd.FspsConfig.serialIo.(
        SerialIoSpiMode := supd.FspsConfig.serialIo.SerialIoSpiMode[i := GetParamValue(config, devices, devOffset)]));
      i, devOffset := i + 1, devOffset + 1;
    }
    assert spi[..GSPI_MAX] == spi;
    OverlayWhole(io.SerialIoSpiMode, spi);
    i := 0;
    while i < CML_UART_DEV_MAX
      invariant 0 <= i <= CML_UART_DEV_MAX && devOffset == I2C_DEV_MAX + GSPI_MAX + i
      invariant supd.FspsConfig == before.(serialIo := io.(SerialIoI2cMode := i2c, SerialIoSpiMode := spi,
                                                        SerialIoUartMode := Overlay(io.SerialIoUartMode, uart[..i])))
    {
      OverlayStep(io.SerialIoUartMode, uart[..i], uart[i]);
      assert uart[..i + 1] == uart[..i] + [uart[i]];
      supd.FspsConfig := supd.FspsConfig.(serialIo := supd.FspsConfig.serialIo.(
        SerialIoUartMode := supd.FspsConfig.serialIo.SerialIoUartMode[i := GetParamValue(config, devices, devOffset)]));
      i, devOffset := i + 1, devOffset + 1;
    }
    assert uart[..CML_UART_DEV_MAX] == uart;
    OverlayWhole(io.SerialIoUartMode, uart);
  }

  /**
   * `parse_devicetree`: without a root device it writes nothing (the source
   * only logs an error); otherwise it fills the serial-IO modes in the layout
   * the build selects.
   */
  method ParseDevicetree(root: Option<ChipConfig>, devices: map<DevFn, bool>, supd: FspsUpd, cometLake: bool)
    requires root.Some? ==> root.value.Valid()
    requires supd.FspsConfig.serialIo.Shape()
    modifies supd`FspsConfig
    ensures root.None? ==> supd.FspsConfig == old(supd.FspsConfig)
    ensures root.Some? ==> supd.FspsConfig == old(supd.FspsConfig).(
                             serialIo := ParsedSerialIo(old(supd.FspsConfig.serialIo), root.value, devices, cometLake))
  {
    if root.None? {
      return;
    }
    if cometLake {
      ParseDevicetreeParamCml(root.value, devices, supd);
    } else {
      ParseDevicetreeParam(root.value, devices, supd);
    }
  }
}
