// An in-memory stand-in for the SPI link and the device behind it: a register
// file holding one value per table row, and the log of every frame sent.
// It answers the driver's read and write frames following the AD7124-8
// register map, so that what the driver writes and what it reads back can be
// related. The device's own activity (conversions, the status register
// changing by itself) is not part of it.
module FakeBus {
  import opened Bits
  import opened Bytes
  import opened Registers
  import opened Protocol

  /** One value per address, each within its row's width. */
  ghost predicate RegFileValid(regs: seq<nat>) {
    |regs| == RowCount && forall a :: 0 <= a < RowCount ==> regs[a] < Pow256(RowAt(a).size)
  }

  /** The register file at power-up: the table's initial values, except the
      identity and status registers, which hold what the part reports. */
  function PowerUp(deviceId: byte, status: byte): (regs: seq<nat>)
    ensures |regs| == RowCount
    ensures forall a :: 0 <= a < RowCount && a != Value(Id) && a != Value(Status) ==> regs[a] == RowAt(a).initial
    ensures regs[Value(Id)] == deviceId && regs[Value(Status)] == status
  {
    seq(RowCount, a requires 0 <= a < RowCount =>
      if a == Value(Id) then deviceId else if a == Value(Status) then status else RowAt(a).initial)
  }

  /** DATA_STATUS, bit 10 of ADC_CTRL: the status register follows every
      read of the data register. */
  predicate DataStatusOn(regs: seq<nat>)
    requires |regs| == RowCount
  {
    BitSet(regs[Value(AdcCtrl)], 0x400)
  }

  /** What follows the register's bytes on DOUT in a read of address `a`:
      the status register after a DATA read with DATA_STATUS set, nothing
      otherwise. */
  function StatusSuffix(regs: seq<nat>, a: nat): (suffix: seq<byte>)
    requires |regs| == RowCount && regs[Value(Status)] < 256
    ensures suffix == [] || suffix == [regs[Value(Status)]]
    ensures suffix != [] <==> a == Value(Data) && DataStatusOn(regs)
  {
    if a == Value(Data) && DataStatusOn(regs) then [regs[Value(Status)]] else []
  }

  /** Eight 0xFF bytes or more: at least 64 ones on DIN reset the serial
      interface and the registers. */
  predicate IsResetBurst(frame: seq<byte>) {
    |frame| >= 8 && forall i :: 0 <= i < |frame| ==> frame[i] == 0xFF
  }

  /** The burst `reset` sends. */
  function ResetBurst(): (f: seq<byte>)
    ensures IsResetBurst(f)
  {
    [0xFF, 0xFF, 0xFF, 0xFF, 0xFF, 0xFF, 0xFF, 0xFF]
  }

  /** A reset puts every read/write register back to its initial value; the
      read-only registers (status, data, identity, error) keep what the part
      reports. */
  function ResetRegs(regs: seq<nat>): (r: seq<nat>)
    requires |regs| == RowCount
    ensures |r| == RowCount
    ensures forall a :: 0 <= a < RowCount ==> r[a] == if RowAt(a).access == ReadWrite then RowAt(a).initial else regs[a]
  {
    seq(RowCount, a requires 0 <= a < RowCount => if RowAt(a).access == ReadWrite then RowAt(a).initial else regs[a])
  }

  /** The address a write command with a payload of the register's width
      writes to, if the frame is one. */
  predicate IsRegisterWrite(frame: seq<byte>) {
    |frame| >= 1 && frame[0] < RowCount &&
    RowAt(frame[0]).access == ReadWrite && |frame| == 1 + RowAt(frame[0]).size
  }

  /** The register file after the device has received `frame`. */
  function Stored(regs: seq<nat>, frame: seq<byte>): (r: seq<nat>)
    requires |regs| == RowCount
    ensures |r| == RowCount
  {
    if IsResetBurst(frame) then ResetRegs(regs)
    else if IsRegisterWrite(frame) then regs[frame[0] := Decode(frame[1..])]
    else regs
  }

  /** The first `m` bytes of `s`, padded with zeros when `s` is shorter. */
  function Fit(s: seq<byte>, m: nat): (t: seq<byte>)
    ensures |t| == m
    ensures m <= |s| ==> t == s[..m]
    ensures m >= |s| ==> t[..|s|] == s
  {
    if m <= |s| then s[..m] else s + Zeros(m - |s|)
  }

  /** What comes back on DOUT while `frame` is clocked out: 0xFF during the
      command byte, then for a read command the register's bytes, most
      significant first, followed by the status byte. */
  function Reply(regs: seq<nat>, frame: seq<byte>): (resp: seq<byte>)
    requires RegFileValid(regs)
    ensures |resp| == |frame|
  {
    if |frame| >= 1 && 0x40 <= frame[0] < 0x40 + RowCount then
      var a := frame[0] - 0x40;
      assert RowAt(Value(Status)).size == 1;
      [0xFF] + Fit(Encode(regs[a], RowAt(a).size) + StatusSuffix(regs, a), |frame| - 1)
    else Zeros(|frame|)
  }

  class RegisterFileBus {
    var regs: seq<nat>
    var log: seq<seq<byte>>

    ghost predicate Valid()
      reads this
    {
      RegFileValid(regs)
    }

    constructor(deviceId: byte, status: byte)
      ensures Valid() && regs == PowerUp(deviceId, status) && log == []
    {
      regs := PowerUp(deviceId, status);
      log := [];
      new;
      assert RowAt(Value(Id)).size == 1;
    }

    /** `write_register(to_send)` of the SPI wrapper: clock the frame out. */
    method Write(frame: seq<byte>)
      requires Valid()
      modifies this
      ensures Valid()
      ensures regs == Stored(old(regs), frame) && log == old(log) + [frame]
    {
      StoredValid(regs, frame);
      regs := Stored(regs, frame);
      log := log + [frame];
    }

    /** `read_register(to_send)` of the SPI wrapper: clock the frame out and
        return what came back, one byte per byte sent. */
    method Transfer(frame: seq<byte>) returns (resp: seq<byte>)
      requires Valid()
      modifies this
      ensures Valid()
      ensures resp == Reply(old(regs), frame) && |resp| == |frame|
      ensures regs == Stored(old(regs), frame) && log == old(log) + [frame]
    {
      resp := Reply(regs, frame);
      StoredValid(regs, frame);
      regs := Stored(regs, frame);
      log := log + [frame];
    }
  }

  // ------------------------------------------------------------------ lemmas

  /** The register file stays well formed whatever is sent. */
  lemma StoredValid(regs: seq<nat>, frame: seq<byte>)
    requires RegFileValid(regs)
    ensures RegFileValid(Stored(regs, frame))
  {
    TableWellFormed();
    if !IsResetBurst(frame) && IsRegisterWrite(frame) {
      assert Decode(frame[1..]) < Pow256(RowAt(frame[0]).size);
    }
  }

  /** A read frame changes nothing in the device. */
  lemma ReadFrameStoresNothing(regs: seq<nat>, r: RegName, withStatus: bool)
    requires |regs| == RowCount
    ensures Stored(regs, ReadFrame(r, withStatus)) == regs
  {
    var f := ReadFrame(r, withStatus);
    assert !IsResetBurst(f) by { assert f[0] != 0xFF; }
  }

  /** A write frame for a read/write register stores its value there and
      leaves every other register as it was. */
  lemma WriteStores(regs: seq<nat>, r: RegName, value: int)
    requires |regs| == RowCount && Access(r) == ReadWrite && 0 <= value < Pow256(Size(r))
    ensures Stored(regs, WriteFrame(r, value).value) == regs[Value(r) := value]
  {
    var f := WriteFrame(r, value).value;
    assert f[0] == Value(r) by { CommandOfMember(r); }
    assert !IsResetBurst(f);
    assert RowAt(f[0]).access == Access(r) && RowAt(f[0]).size == Size(r);
    assert IsRegisterWrite(f) && Decode(f[1..]) == value;
  }

  /** A write frame for a read-only register is ignored. */
  lemma ReadOnlyIgnoresWrite(regs: seq<nat>, r: RegName, value: int)
    requires |regs| == RowCount && Access(r) == ReadOnly && 0 <= value < Pow256(Size(r))
    ensures Stored(regs, WriteFrame(r, value).value) == regs
  {
    var f := WriteFrame(r, value).value;
    assert !IsResetBurst(f) by { assert f[0] != 0xFF; }
    assert f[0] == Value(r);
  }

  /** The reply to a read command for address `a`. */
  lemma ReplyOfRead(regs: seq<nat>, a: nat, frame: seq<byte>)
    requires RegFileValid(regs) && a < RowCount && |frame| >= 1 && frame[0] == 0x40 + a
    ensures regs[a] < Pow256(RowAt(a).size) && regs[0] < 256
    ensures Reply(regs, frame) == [0xFF] + Fit(Encode(regs[a], RowAt(a).size) + StatusSuffix(regs, a), |frame| - 1)
  {
    assert RowAt(0).size == 1;
  }

  /** A read command for address `a` with one padding byte per register
      byte gets the register's value back. */
  lemma ReplyReadAt(regs: seq<nat>, a: nat, frame: seq<byte>)
    requires RegFileValid(regs) && a < RowCount
    requires |frame| == 1 + RowAt(a).size && frame[0] == 0x40 + a
    ensures DataValue(Reply(regs, frame)) == regs[a]
  {
    ReplyOfRead(regs, a, frame);
    var enc := Encode(regs[a], RowAt(a).size);
    assert Fit(enc + StatusSuffix(regs, a), |frame| - 1) == enc;
    DataValueOfPadded(0xFF, regs[a], RowAt(a).size);
  }

  /** With one more padding byte, the value comes back, and the last byte is
      the status register when the part sends it (a DATA read with
      DATA_STATUS set) and the zero padding otherwise. */
  lemma ReplyReadWithStatusAt(regs: seq<nat>, a: nat, frame: seq<byte>)
    requires RegFileValid(regs) && a < RowCount
    requires |frame| == 2 + RowAt(a).size && frame[0] == 0x40 + a
    ensures SplitStatus(Reply(regs, frame)).0 == regs[a]
    ensures a == Value(Data) && DataStatusOn(regs) ==> SplitStatus(Reply(regs, frame)).1 == regs[Value(Status)]
    ensures !(a == Value(Data) && DataStatusOn(regs)) ==> SplitStatus(Reply(regs, frame)).1 == 0
  {
    ReplyOfRead(regs, a, frame);
    var enc := Encode(regs[a], RowAt(a).size);
    var last: byte := if a == Value(Data) && DataStatusOn(regs) then regs[0] else 0;
    assert Fit(enc + StatusSuffix(regs, a), |frame| - 1) == enc + [last];
    assert Reply(regs, frame) == [0xFF] + enc + [last];
    SplitStatusOfReply(0xFF, regs[a], RowAt(a).size, last);
  }

  /** Reading a register returns what the register file holds for it. */
  lemma ReplyRead(regs: seq<nat>, r: RegName)
    requires RegFileValid(regs)
    ensures DataValue(Reply(regs, ReadFrame(r, false))) == regs[Value(r)]
  {
    ReplyReadAt(regs, Value(r), ReadFrame(r, false));
  }

  /** Reading with the status byte returns the register, and after a DATA
      read with DATA_STATUS set the status register; otherwise the last byte
      is padding. */
  lemma ReplyReadWithStatus(regs: seq<nat>, r: RegName)
    requires RegFileValid(regs)
    ensures SplitStatus(Reply(regs, ReadFrame(r, true))).0 == regs[Value(r)]
    ensures r == Data && DataStatusOn(regs) ==> SplitStatus(Reply(regs, ReadFrame(r, true))).1 == regs[Value(Status)]
    ensures !(r == Data && DataStatusOn(regs)) ==> SplitStatus(Reply(regs, ReadFrame(r, true))).1 == 0
  {
    ReplyReadWithStatusAt(regs, Value(r), ReadFrame(r, true));
  }

  /** A value written to a read/write register reads back unchanged. */
  lemma WriteThenRead(regs: seq<nat>, r: RegName, value: int)
    requires RegFileValid(regs) && Access(r) == ReadWrite && 0 <= value < Pow256(Size(r))
    ensures RegFileValid(Stored(regs, WriteFrame(r, value).value))
    ensures DataValue(Reply(Stored(regs, WriteFrame(r, value).value), ReadFrame(r, false))) == value
  {
    StoredValid(regs, WriteFrame(r, value).value);
    WriteStores(regs, r, value);
    ReplyRead(Stored(regs, WriteFrame(r, value).value), r);
  }

  /** What `reset` leaves behind: the burst restores every read/write
      register, and the follow-up write disables channel 0 (0x0001); the
      read-only registers keep what the part reports. */
  lemma ResetThenDisableChannel0(regs: seq<nat>)
    requires RegFileValid(regs)
    ensures var r := Stored(Stored(regs, ResetBurst()), WriteFrame(ChMap(0), 0x0001).value);
      r[Value(ChMap(0))] == 0x0001 &&
      forall a :: 0 <= a < RowCount && a != Value(ChMap(0)) ==>
        r[a] == if RowAt(a).access == ReadWrite then RowAt(a).initial else regs[a]
  {
    var reset := Stored(regs, ResetBurst());
    assert reset == ResetRegs(regs);
    ChannelBlock(0);
    WriteStores(reset, ChMap(0), 0x0001);
  }

  /** In particular the identity register, read-only, survives `reset`. */
  lemma ResetKeepsId(regs: seq<nat>)
    requires RegFileValid(regs)
    ensures Stored(Stored(regs, ResetBurst()), WriteFrame(ChMap(0), 0x0001).value)[Value(Id)] == regs[Value(Id)]
  {
    var reset := Stored(regs, ResetBurst());
    assert reset == ResetRegs(regs);
    assert reset[0x05] == regs[0x05] by {
      assert RowAt(0x05).access == ReadOnly;
    }
    ChannelBlock(0);
    Bytes.Pow256Values();
    WriteStores(reset, ChMap(0), 0x0001);
  }

  /** The status register the part reports at power-up survives the
      driver's `reset` together with its identity: a part that reports 0x90
      (not ready, power-on reset flagged) reads as the driver's unit test
      expects after construction. */
  lemma StatusThroughReset(deviceId: byte, status: byte)
    ensures var regs := Stored(Stored(PowerUp(deviceId, status), ResetBurst()), WriteFrame(ChMap(0), 0x0001).value);
      regs[Value(Status)] == status && regs[Value(Id)] == deviceId
    ensures var regs := Stored(Stored(PowerUp(deviceId, status), ResetBurst()), WriteFrame(ChMap(0), 0x0001).value);
      status == 0x90 ==> StatusAsWritten(regs[Value(Status)]) == StatusFlags(false, false, true, 0)
  {
    var regs0 := PowerUp(deviceId, status);
    assert RegFileValid(regs0) by {
      TableWellFormed();
      assert RowAt(Value(Id)).size == 1 && RowAt(Value(Status)).size == 1;
    }
    var regs := Stored(Stored(regs0, ResetBurst()), WriteFrame(ChMap(0), 0x0001).value);
    assert regs[Value(Status)] == status by {
      ResetThenDisableChannel0(regs0);
      assert Value(Status) != Value(ChMap(0)) && RowAt(Value(Status)).access == ReadOnly;
    }
    assert regs[Value(Id)] == deviceId by { ResetKeepsId(regs0); }
    if status == 0x90 {
      StatusExamples();
    }
  }
}
