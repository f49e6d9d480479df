// The pure parts of the AD7124 driver: the command byte, the frames sent for a
// read and a write, the decoding of a response, the status byte, and the bit
// layouts the register packers produce.
module Protocol {
  import opened Bits
  import opened Bytes
  import opened Errors
  import opened Registers

  // ---------------------------------------------------------------- commands

  /** The command byte: bit 7 clear, bit 6 the read flag, bits 5:0 the address. */
  function BuildCommand(address: nat, read: bool): (c: byte)
    ensures c < 0x80
    ensures BitSet(c, 0x40) == read
    ensures c % 0x40 == AndMask(address, 0x3F)
  {
    (if read then 0x40 else 0) + AndMask(address, 0x3F)
  }

  /** `_build_command(register_enum, read)` for whatever it is handed: it
      reads `register_enum.value`, so a plain int raises AttributeError before
      any byte is built. */
  function CommandFor(arg: RegArg, read: bool): (c: Result<byte>)
    ensures c.Success? <==> arg.Member?
    ensures c.Success? ==> c.value == BuildCommand(Value(arg.reg), read)
    ensures c.Failure? ==> c.error == AttributeError
  {
    match ValueOf(arg)
    case Success(v) => Success(BuildCommand(v, read))
    case Failure(e) => Failure(e)
  }

  /** As written, `set_channel` and `_write_setup` hand `write_register` the
      int `CH0_MAP_REG + channel` or `CFG0_REG + setup`, so every in-range
      call fails building its command; `AD7124RegNames(...)` of that int is
      the member that was meant. */
  lemma PackedTargetHasNoValue(channel: nat, setup: nat)
    requires channel <= 15 && setup <= 7
    ensures CommandFor(AddOffset(ChMap(0), channel), false) == Failure(AttributeError)
    ensures CommandFor(AddOffset(Cfg(0), setup), false) == Failure(AttributeError)
    ensures FromValue(AddOffset(ChMap(0), channel).n) == Some(ChMap(channel))
    ensures FromValue(AddOffset(Cfg(0), setup).n) == Some(Cfg(setup))
  {
    ChannelBlock(channel);
    CfgBlock(setup);
  }

  /** Every register address fits in six bits, so its write command is the
      address itself and its read command the address plus 0x40. */
  lemma CommandOfMember(r: RegName)
    ensures BuildCommand(Value(r), false) == Value(r)
    ensures BuildCommand(Value(r), true) == 0x40 + Value(r)
  {
    assert AndMask(Value(r), 0x3F) == Value(r);
  }

  /** What the device reads from a command byte: the address and the read flag. */
  function ParseCommand(c: byte): (nat, bool) {
    (c % 0x40, BitSet(c, 0x40))
  }

  /** A command byte names its address (masked to six bits) and its direction. */
  lemma CommandRoundTrip(address: nat, read: bool)
    ensures ParseCommand(BuildCommand(address, read)) == (address % 0x40, read)
  {
  }

  /** Every byte with bit 7 clear is the command for what it names. */
  lemma CommandOfParse(c: byte)
    requires c < 0x80
    ensures BuildCommand(ParseCommand(c).0, ParseCommand(c).1) == c
  {
  }

  // ------------------------------------------------------------------ frames

  /** The bytes `_read_register` sends: the read command and one zero byte per
      register byte, plus one more when the status byte is appended. */
  function ReadFrame(r: RegName, withStatus: bool): (f: seq<byte>)
    ensures |f| == 1 + Size(r) + (if withStatus then 1 else 0)
    ensures f[0] == BuildCommand(Value(r), true)
    ensures forall i :: 1 <= i < |f| ==> f[i] == 0
  {
    var n := Size(r) + if withStatus then 1 else 0;
    EncodeZero(n);
    [BuildCommand(Value(r), true)] + Encode(0, n)
  }

  /** The read frame is the read command followed by `(0).to_bytes(n)`. */
  lemma ReadFrameBytes(r: RegName, withStatus: bool, n: nat)
    requires n == Size(r) + if withStatus then 1 else 0
    ensures ToBytes(0, n).Success?
    ensures [BuildCommand(Value(r), true)] + ToBytes(0, n).value == ReadFrame(r, withStatus)
  {
  }

  /** The bytes `write_register` sends, or the OverflowError that `to_bytes`
      raises when the value does not fit the register (and nothing is sent). */
  function WriteFrame(r: RegName, value: int): (f: Result<seq<byte>>)
    ensures f.Success? <==> 0 <= value < Pow256(Size(r))
    ensures f.Failure? ==> f.error == OverflowError
    ensures f.Success? ==> |f.value| == 1 + Size(r) && f.value[0] == BuildCommand(Value(r), false)
    ensures f.Success? ==> Decode(f.value[1..]) == value
  {
    match ToBytes(value, Size(r))
    case Success(b) =>
      assert ([BuildCommand(Value(r), false)] + b)[1..] == b;
      Success([BuildCommand(Value(r), false)] + b)
    case Failure(e) => Failure(e)
  }

  /** `data[1:]`: every response but an empty one loses its first byte. */
  function Tail(s: seq<byte>): (t: seq<byte>)
    ensures s != [] ==> [s[0]] + t == s
    ensures s == [] ==> t == []
  {
    if s == [] then [] else s[1..]
  }

  /** `_data_to_int(data)`: the first byte is dropped, the rest read big-endian. */
  function DataValue(data: seq<byte>): (v: nat)
    ensures v < Pow256(|Tail(data)|)
  {
    Decode(Tail(data))
  }

  /** Whatever the padding byte, the bytes after it give back the value. */
  lemma DataValueOfPadded(pad: byte, v: nat, n: nat)
    requires v < Pow256(n)
    ensures DataValue([pad] + Encode(v, n)) == v
  {
    DecodeEncode(v, n);
    assert Tail([pad] + Encode(v, n)) == Encode(v, n);
  }

  /** `read_register_with_status`: the status is the last byte, the value is
      decoded from the bytes before it (the first again dropped). */
  function SplitStatus(response: seq<byte>): (split: (nat, byte))
    requires |response| >= 1
    ensures split.1 == response[|response| - 1]
    ensures |response| >= 2 ==> split.0 == Decode(response[1..|response| - 1])
    ensures |response| == 1 ==> split.0 == 0
  {
    (DataValue(response[..|response| - 1]), response[|response| - 1])
  }

  /** A padded value followed by a status byte splits into the two. */
  lemma SplitStatusOfReply(pad: byte, v: nat, n: nat, status: byte)
    requires v < Pow256(n)
    ensures SplitStatus([pad] + Encode(v, n) + [status]) == (v, status)
  {
    var resp := [pad] + Encode(v, n) + [status];
    assert resp[..|resp| - 1] == [pad] + Encode(v, n);
    DataValueOfPadded(pad, v, n);
  }

  // ------------------------------------------------------------------ status

  datatype StatusFlags = StatusFlags(ready: bool, error: bool, powerOnReset: bool, activeChannel: nat)

  /** The status register as the datasheet lays it out: bit 7 is low when a
      conversion is ready, bit 6 flags an error, bit 4 a power-on reset, and
      bits 3:0 name the channel of the latest conversion. */
  function DecodeStatus(v: nat): (s: StatusFlags)
    ensures s.activeChannel < 16
  {
    StatusFlags(!BitSet(v, 0x80), BitSet(v, 0x40), BitSet(v, 0x10), AndMask(v, 0x0F))
  }

  /** The status byte that reports the given flags (bit 5 is always zero). */
  function EncodeStatus(s: StatusFlags): byte
    requires s.activeChannel < 16
  {
    Flag(!s.ready) * 0x80 + Flag(s.error) * 0x40 + Flag(s.powerOnReset) * 0x10 + s.activeChannel
  }

  lemma DecodeEncodeStatus(s: StatusFlags)
    requires s.activeChannel < 16
    ensures DecodeStatus(EncodeStatus(s)) == s
  {
    var e := EncodeStatus(s);
    var low := Flag(s.powerOnReset) * 0x10 + s.activeChannel;
    assert e == 128 * Flag(!s.ready) + 64 * Flag(s.error) + low && low < 32;
    assert e / 128 == Flag(!s.ready);
    assert e / 64 == 2 * Flag(!s.ready) + Flag(s.error);
    assert e / 16 == 8 * Flag(!s.ready) + 4 * Flag(s.error) + Flag(s.powerOnReset);
  }

  /** A byte is its bits 7, 6, 5 and 4 and its low nibble. */
  lemma StatusByteBits(b: byte)
    ensures b == 0x80 * ((b / 0x80) % 2) + 0x40 * ((b / 0x40) % 2) + 0x20 * ((b / 0x20) % 2)
              + 0x10 * ((b / 0x10) % 2) + b % 0x10
  {
    var b4, b5, b6 := b / 16, b / 32, b / 64;
    DivMod(b, 16);
    DivDiv(b, 16, 2);
    DivMod(b4, 2);
    DivDiv(b, 32, 2);
    DivMod(b5, 2);
    DivDiv(b, 64, 2);
    DivMod(b6, 2);
  }

  lemma EncodeDecodeStatus(b: byte)
    requires !BitSet(b, 0x20)
    ensures EncodeStatus(DecodeStatus(b)) == b
  {
    StatusByteBits(b);
    FlagOfBitSet(b, 0x80);
    FlagOfBitSet(b, 0x40);
    FlagOfBitSet(b, 0x10);
  }

  /** The flags `read_status` returns for the status value `v`: it sets the three
      flags from bits 7, 6 and 4 but masks its own initial channel, never `v`. */
  function StatusAsWritten(v: nat): (s: StatusFlags)
    ensures s == DecodeStatus(v).(activeChannel := 0)
  {
    StatusFlags(!BitSet(v, 0x80), BitSet(v, 0x40), BitSet(v, 0x10), AndMask(0, 0x0F))
  }

  /** As written, the channel is always 0, so the reported flags agree with the
      status register exactly when its channel nibble is 0. */
  lemma StatusAsWrittenDropsChannel(v: nat)
    ensures StatusAsWritten(v).activeChannel == 0
    ensures StatusAsWritten(v) == DecodeStatus(v) <==> v % 16 == 0
  {
  }

  /** Reading back the status byte of any flags as written keeps the three
      flags and reports channel 0 whatever channel was encoded. */
  lemma StatusAsWrittenOfEncoded(s: StatusFlags)
    requires s.activeChannel < 16
    ensures StatusAsWritten(EncodeStatus(s)) == s.(activeChannel := 0)
  {
    DecodeEncodeStatus(s);
  }

  /** Status bytes read both ways. 0x90 (bits 7 and 4) is what the driver's
      unit test expects after start-up: not ready, no error, power-on reset
      flagged, channel 0. 0x80 is not ready and nothing else; 0x10 is ready
      with the power-on flag. 0x93 is the same as 0x90 but for conversion
      channel 3, which only the full decoding reports. */
  lemma StatusExamples()
    ensures StatusAsWritten(0x90) == StatusFlags(false, false, true, 0)
    ensures DecodeStatus(0x90) == StatusFlags(false, false, true, 0)
    ensures DecodeStatus(0x80) == StatusFlags(false, false, false, 0)
    ensures DecodeStatus(0x10) == StatusFlags(true, false, true, 0)
    ensures StatusAsWritten(0x93) == StatusFlags(false, false, true, 0)
    ensures DecodeStatus(0x93) == StatusFlags(false, false, true, 3)
  {
  }

  /** The identity check of the constructor: an AD7124-8 reports 0x14 or 0x16,
      that is device nibble (bits 7:4) 1 and silicon revision (bits 3:0) 4 or 6.
      The table's reset value for ID (0x02) is not one of them. */
  predicate IsAd7124Id(id: nat): (ok: bool)
    ensures ok <==> id / 0x10 == 1 && (id % 0x10 == 4 || id % 0x10 == 6)
    ensures ok ==> id != Initial(Id)
  {
    id == 0x14 || id == 0x16
  }
}
