/** drivers/mcp47x6: packing of the write commands and decoding of the read frame, on the
    machine's own integer widths. The device side follows the bit positions of the driver. */
module Mcp47x6 {
  import opened Common

  /** MCP47x6_type_e; the enumerator is the mask of the valid data bits. */
  datatype DeviceType = Dac8 | Dac10 | Dac12 {
    function Mask(): bv16 {
      match this
      case Dac8 => 0x00FF
      case Dac10 => 0x03FF
      case Dac12 => 0x0FFF
    }
  }

  const PD_OFF: byte := 0
  const GAIN_X2: byte := 1
  const VREF_EXT_UNBUFFERED: byte := 2

  const CMD_VOLATILE_MEM: byte := 2
  const CMD_ALL_MEM: byte := 3

  /** MCP47x6_settings_t; the packed enumerations are one byte each. */
  datatype Settings = Settings(device: DeviceType, vref: byte, pwrDown: byte, gain: byte)

  /** The settings the DAC module uses for every command. */
  const DAC_SETTINGS: Settings := Settings(Dac12, VREF_EXT_UNBUFFERED, PD_OFF, GAIN_X2)

  /** The cast to uint8_t. */
  function Low(x: bv16): byte {
    (x & 0xFF) as byte
  }

  function Wide(x: byte): bv16 {
    x as bv16
  }

  // ---------------------------------------------------------------- frames

  function VolatileDacFrame(sett: Settings, value: bv16): (f: seq<byte>)
    ensures |f| == 2
  {
    var data := value & sett.device.Mask();
    var head := (sett.pwrDown << 4) & 0xF0;
    match sett.device
    case Dac8 => [head, Low(data)]
    case Dac10 => [head | Low(data >> 6), Low(data << 2)]
    case Dac12 => [head | Low(data >> 8), Low(data)]
  }

  /** For the 8-bit device the third byte keeps what the buffer held (third). */
  function MemFrame(cmd: byte, sett: Settings, value: bv16, third: byte): (f: seq<byte>)
    ensures |f| == 3
  {
    var data := value & sett.device.Mask();
    var head := (cmd << 5) | ((sett.vref & 0x02) << 3) | ((sett.pwrDown & 0x02) << 1) | (sett.gain & 0x01);
    match sett.device
    case Dac8 => [head, Low(data), third]
    case Dac10 => [head, Low(data >> 2), Low(data << 6)]
    case Dac12 => [head, Low(data >> 4), Low(data << 4)]
  }

  function VolatileCfgByte(sett: Settings): byte {
    (4 << 5) | ((sett.vref & 0x03) << 3) | ((sett.pwrDown & 0x03) << 1) | (sett.gain & 0x01)
  }

  // ---------------------------------------------------------------- the device side

  /** The value a device takes out of a two-byte write of the volatile DAC register. */
  function DacValue(device: DeviceType, f: seq<byte>): bv16
    requires |f| == 2
  {
    match device
    case Dac8 => Wide(f[1])
    case Dac10 => (Wide(f[0] & 0x0F) << 6) | (Wide(f[1]) >> 2)
    case Dac12 => (Wide(f[0] & 0x0F) << 8) | Wide(f[1])
  }

  /** The value a device takes out of a three-byte memory write. */
  function MemValue(device: DeviceType, f: seq<byte>): bv16
    requires |f| == 3
  {
    match device
    case Dac8 => Wide(f[1])
    case Dac10 => (Wide(f[1]) << 2) | (Wide(f[2]) >> 6)
    case Dac12 => (Wide(f[1]) << 4) | (Wide(f[2]) >> 4)
  }

  function VrefOf(head: byte): byte {
    (head >> 3) & 0x03
  }

  function PwrDownOf(head: byte): byte {
    (head >> 1) & 0x03
  }

  function GainOf(head: byte): byte {
    head & 0x01
  }

  lemma VolatileDac8(sett: Settings, value: bv16)
    requires sett.pwrDown <= 3 && sett.device.Dac8?
    ensures VolatileDacOk(sett, value)
  {
  }

  lemma VolatileDac10(sett: Settings, value: bv16)
    requires sett.pwrDown <= 3 && sett.device.Dac10?
    ensures VolatileDacOk(sett, value)
  {
  }

  lemma VolatileDac12(sett: Settings, value: bv16)
    requires sett.pwrDown <= 3 && sett.device.Dac12?
    ensures VolatileDacOk(sett, value)
  {
  }

  predicate VolatileDacOk(sett: Settings, value: bv16) {
    var f := VolatileDacFrame(sett, value);
    && DacValue(sett.device, f) == value & sett.device.Mask()
    && (f[0] >> 4) & 0x03 == sett.pwrDown
    && f[0] >> 6 == 0
  }

  /** A write command for the volatile DAC register is recognised as one, and the device
      gets the masked value and both power-down bits. */
  lemma VolatileDacRoundTrip(sett: Settings, value: bv16)
    requires sett.pwrDown <= 3
    ensures VolatileDacOk(sett, value)
  {
    match sett.device
    case Dac8 => VolatileDac8(sett, value);
    case Dac10 => VolatileDac10(sett, value);
    case Dac12 => VolatileDac12(sett, value);
  }

  lemma MemDac8(cmd: byte, sett: Settings, value: bv16, third: byte)
    requires cmd <= 7 && sett.device.Dac8?
    ensures MemOk(cmd, sett, value, third)
  {
  }

  lemma MemDac10(cmd: byte, sett: Settings, value: bv16, third: byte)
    requires cmd <= 7 && sett.device.Dac10?
    ensures MemOk(cmd, sett, value, third)
  {
  }

  lemma MemDac12(cmd: byte, sett: Settings, value: bv16, third: byte)
    requires cmd <= 7 && sett.device.Dac12?
    ensures MemOk(cmd, sett, value, third)
  {
  }

  predicate MemOk(cmd: byte, sett: Settings, value: bv16, third: byte) {
    var f := MemFrame(cmd, sett, value, third);
    MemValue(sett.device, f) == value & sett.device.Mask() && f[0] >> 5 == cmd
  }

  /** A memory write carries the masked value and the command, whatever the settings. */
  lemma MemDataRoundTrip(cmd: byte, sett: Settings, value: bv16, third: byte)
    requires cmd == CMD_VOLATILE_MEM || cmd == CMD_ALL_MEM
    ensures MemOk(cmd, sett, value, third)
  {
    match sett.device
    case Dac8 => MemDac8(cmd, sett, value, third);
    case Dac10 => MemDac10(cmd, sett, value, third);
    case Dac12 => MemDac12(cmd, sett, value, third);
  }

  /** The settings survive a memory write exactly when the low bits the masks 0x02 drop are
      not set. */
  lemma MemSettingsExact(cmd: byte, sett: Settings, value: bv16, third: byte)
    requires cmd == CMD_VOLATILE_MEM || cmd == CMD_ALL_MEM
    requires sett.vref <= 3 && sett.pwrDown <= 3 && sett.gain <= 1
    ensures var head := MemFrame(cmd, sett, value, third)[0];
            && (VrefOf(head) == sett.vref && PwrDownOf(head) == sett.pwrDown && GainOf(head) == sett.gain
                <==> sett.vref & 1 == 0 && sett.pwrDown & 1 == 0)
  {
  }

  /** The configuration command has no such loss. */
  lemma VolatileCfgRoundTrip(sett: Settings)
    requires sett.vref <= 3 && sett.pwrDown <= 3 && sett.gain <= 1
    ensures var b := VolatileCfgByte(sett);
            VrefOf(b) == sett.vref && PwrDownOf(b) == sett.pwrDown && GainOf(b) == sett.gain && b >> 5 == 4
  {
  }

  /** The bytes on the wire for the settings of the DAC module: 0.5 V as code 409 in the
      write-all command, with reference 2, power-down 0 and gain 1; and a volatile write. */
  lemma FramesOnTheWire()
    ensures MemFrame(CMD_ALL_MEM, DAC_SETTINGS, 409, 0) == [0x71, 0x19, 0x90]
    ensures VolatileDacFrame(DAC_SETTINGS, 0x0ABC) == [0x0A, 0xBC]
    ensures VolatileCfgByte(DAC_SETTINGS) == 0x91
  {
  }

  // ---------------------------------------------------------------- the driver functions

  method VolatileCase8(sett: Settings, value: bv16, buff: array<byte>)
    requires buff.Length == 2 && sett.device.Dac8?
    modifies buff
    ensures buff[..] == VolatileDacFrame(sett, value)
  {
    var data := value & sett.device.Mask();
    var head := (sett.pwrDown << 4) & 0xF0;
    buff[0] := head;
    buff[1] := Low(data);
  }

  method VolatileCase10(sett: Settings, value: bv16, buff: array<byte>)
    requires buff.Length == 2 && sett.device.Dac10?
    modifies buff
    ensures buff[..] == VolatileDacFrame(sett, value)
  {
    var data := value & sett.device.Mask();
    var head := (sett.pwrDown << 4) & 0xF0;
    buff[0] := head;
    var marked := head | Low(data >> 6);
    buff[0] := marked;
    buff[1] := Low(data << 2);
  }

  method VolatileCase12(sett: Settings, value: bv16, buff: array<byte>)
    requires buff.Length == 2 && sett.device.Dac12?
    modifies buff
    ensures buff[..] == VolatileDacFrame(sett, value)
  {
    var data := value & sett.device.Mask();
    var head := (sett.pwrDown << 4) & 0xF0;
    buff[0] := head;
    var marked := head | Low(data >> 8);
    buff[0] := marked;
    buff[1] := Low(data);
  }

  /** MCP47x6_prepare_write_volatile_DAC; one method for each case of its switch. */
  method PrepareWriteVolatileDac(sett: Settings, value: bv16, buff: array<byte>)
    requires buff.Length == 2
    modifies buff
    ensures buff[..] == VolatileDacFrame(sett, value)
  {
    match sett.device
    case Dac8 => VolatileCase8(sett, value, buff);
    case Dac10 => VolatileCase10(sett, value, buff);
    case Dac12 => VolatileCase12(sett, value, buff);
  }

  method MemCase8(cmd: byte, sett: Settings, value: bv16, buff: array<byte>)
    requires buff.Length == 3 && sett.device.Dac8?
    modifies buff
    ensures buff[..] == MemFrame(cmd, sett, value, old(buff[2]))
  {
    var data := value & sett.device.Mask();
    buff[0] := (cmd << 5) | ((sett.vref & 0x02) << 3) | ((sett.pwrDown & 0x02) << 1) | (sett.gain & 0x01);
    buff[1] := Low(data);
  }

  method MemCase10(cmd: byte, sett: Settings, value: bv16, buff: array<byte>)
    requires buff.Length == 3 && sett.device.Dac10?
    modifies buff
    ensures buff[..] == MemFrame(cmd, sett, value, old(buff[2]))
  {
    var data := value & sett.device.Mask();
    buff[0] := (cmd << 5) | ((sett.vref & 0x02) << 3) | ((sett.pwrDown & 0x02) << 1) | (sett.gain & 0x01);
    buff[1] := Low(data >> 2);
    buff[2] := Low(data << 6);
  }

  method MemCase12(cmd: byte, sett: Settings, value: bv16, buff: array<byte>)
    requires buff.Length == 3 && sett.device.Dac12?
    modifies buff
    ensures buff[..] == MemFrame(cmd, sett, value, old(buff[2]))
  {
    var data := value & sett.device.Mask();
    buff[0] := (cmd << 5) | ((sett.vref & 0x02) << 3) | ((sett.pwrDown & 0x02) << 1) | (sett.gain & 0x01);
    buff[1] := Low(data >> 4);
    buff[2] := Low(data << 4);
  }

  /** MCP47x6_prepare_write_mem; one method for each case of its switch. */
  method PrepareWriteMem(cmd: byte, sett: Settings, value: bv16, buff: array<byte>)
    requires buff.Length == 3
    modifies buff
    ensures buff[..] == MemFrame(cmd, sett, value, old(buff[2]))
  {
    match sett.device
    case Dac8 => MemCase8(cmd, sett, value, buff);
    case Dac10 => MemCase10(cmd, sett, value, buff);
    case Dac12 => MemCase12(cmd, sett, value, buff);
  }

  /** MCP47_1_2__6_TWI_READ_LEN */
  const READ_LEN: nat := 6

  /** MCP47x6_read_t */
  class ReadData {
    var nvSett: Settings
    var volSett: Settings
    var nvData: bv16
    var volData: bv16
    var volRdy: byte
    var nvRdy: byte

    constructor ()
      ensures nvSett == Settings(Dac8, 0, 0, 0) && nvRdy == 0
    {
      nvSett, volSett := Settings(Dac8, 0, 0, 0), Settings(Dac8, 0, 0, 0);
      nvData, volData, volRdy, nvRdy := 0, 0, 0, 0;
    }

    /** MCP47x6_decode_read_data: the fall-through makes the 10-bit device the 12-bit type; a
        frame of another length, and any frame of the 8-bit device, changes the type only. */
    method Decode(device: DeviceType, raw: seq<byte>)
      modifies this
      ensures nvSett.device == volSett.device == if device.Dac8? then Dac8 else Dac12
      ensures !device.Dac8? && |raw| == READ_LEN ==>
                && nvSett == SettingsOf(raw[3]) && nvRdy == raw[3] >> 7
                && volSett == SettingsOf(raw[0]) && volRdy == raw[0] >> 7
                && volData == Shifted(Joined(raw[4], raw[5])) && nvData == Shifted(old(nvData))
      ensures device.Dac8? || |raw| != READ_LEN ==>
                && nvSett == old(nvSett).(device := nvSett.device) && volSett == old(volSett).(device := volSett.device)
                && nvRdy == old(nvRdy) && volRdy == old(volRdy) && volData == old(volData) && nvData == old(nvData)
    {
      if device.Dac8? {
        SetDevice(Dac8);
        return;
      }
      if device.Dac10? {
        SetDevice(Dac10);
      }
      SetDevice(Dac12);
      DecodeLong(raw);
    }

    method SetDevice(device: DeviceType)
      modifies this`nvSett, this`volSett
      ensures nvSett == old(nvSett).(device := device) && volSett == old(volSett).(device := device)
    {
      nvSett := nvSett.(device := device);
      volSett := volSett.(device := device);
    }

    /** MCP47_1_2_6_decode_read */
    method DecodeLong(raw: seq<byte>)
      requires nvSett.device == volSett.device == Dac12
      modifies this
      ensures nvSett.device == volSett.device == Dac12
      ensures |raw| == READ_LEN ==>
                && nvSett == SettingsOf(raw[3]) && nvRdy == raw[3] >> 7
                && volSett == SettingsOf(raw[0]) && volRdy == raw[0] >> 7
                && volData == Shifted(Joined(raw[4], raw[5])) && nvData == Shifted(old(nvData))
      ensures |raw| != READ_LEN ==>
                && nvSett == old(nvSett) && volSett == old(volSett)
                && nvRdy == old(nvRdy) && volRdy == old(volRdy) && volData == old(volData) && nvData == old(nvData)
    {
      if |raw| == READ_LEN {
        volRdy := ReadyBit(raw[0]);
        volSett := DecodeSettings(volSett, raw[0]);
        volData := Joined(raw[1], raw[2]);
        nvRdy := ReadyBit(raw[3]);
        nvSett := DecodeSettings(nvSett, raw[3]);
        // the source stores the non-volatile word over the volatile one
        var data := Joined(raw[4], raw[5]);
        volData := data;
        volData := Shifted(data);
        nvData := Shifted(nvData);
      }
    }
  }

  function ReadyBit(head: byte): (bit: byte)
    ensures bit == head >> 7
  {
    (head >> 7) & 0x01
  }

  lemma JoinedIsWord(high: byte, low: byte)
    ensures Joined(high, low) & 0xFF == Wide(low) && Joined(high, low) >> 8 == Wide(high)
    ensures Shifted(Joined(high, low)) == (Wide(high) << 4) | (Wide(low) >> 4)
  {
  }

  /** The shift of left-aligned 12-bit data. */
  function Shifted(data: bv16): bv16 {
    data >> 4
  }

  /** A 16-bit word from its two bytes. */
  function Joined(high: byte, low: byte): bv16 {
    (Wide(high) << 8) | Wide(low)
  }

  /** The configuration bits a device reports in one byte. */
  function SettingsOf(head: byte): Settings {
    Settings(Dac12, VrefOf(head), PwrDownOf(head), GainOf(head))
  }

  /** The assignments of one settings block, including the power-on-reset bit that lands in
      pwr_down first and is overwritten. */
  method DecodeSettings(sett: Settings, head: byte) returns (r: Settings)
    ensures r == SettingsOf(head).(device := sett.device)
  {
    r := sett.(pwrDown := (head >> 6) & 0x01);
    r := r.(vref := (head >> 3) & 0x03);
    r := r.(pwrDown := (head >> 1) & 0x03);
    r := r.(gain := head & 0x01);
  }
}
