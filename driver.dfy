// The AD7124-8 driver object: every register access is a frame handed to the
// bus, and every setter packs its fields and writes the word to the register
// it addresses.
module Driver {
  import opened Bits
  import opened Bytes
  import opened Errors
  import opened Registers
  import opened Protocol
  import opened Layouts
  import opened Packers
  import opened FakeBus

  const NotAnAd7124: string := "ERROR: device on SPI bus is NOT an AD7124!"
  const ChannelOutOfRange: string := "Channel must be in range 0-15"
  const SetupOutOfRange: string := "setup must be in range 0-7"

  /** `_data_to_int`: drop the first byte (always 0xFF, sent while the command
      was clocked out), then shift in the remaining bytes one at a time. */
  method DataToInt(data: seq<byte>) returns (intValue: nat)
    ensures intValue == DataValue(data)
  {
    intValue := 0;
    var rest := if |data| == 0 then [] else data[1..];
    assert rest == Tail(data);
    Pow2Values();
    for i := 0 to |rest|
      invariant intValue == Decode(rest[..i])
    {
      // int_value <<= 8
      intValue := intValue * 0x100;
      // int_value |= byte_value
      intValue := OrInto(intValue, rest[i], Decode(rest[..i]), 0x100, 8);
      assert rest[..i + 1][..i] == rest[..i];
    }
    assert rest[..|rest|] == rest;
  }

  class Ad7124Driver {
    /** The SPI link, and the device behind it. */
    const bus: RegisterFileBus

    constructor Attach(bus: RegisterFileBus)
      ensures this.bus == bus
    {
      this.bus := bus;
    }

    /** `__init__`: reset the part, read its identity and refuse anything but
        an AD7124-8 (0x14 or 0x16) with OSError. */
    static method Open(bus: RegisterFileBus) returns (r: Result<Ad7124Driver>)
      requires bus.Valid()
      modifies bus
      ensures bus.Valid()
      ensures bus.log == old(bus.log) + [ResetBurst(), WriteFrame(ChMap(0), 0x0001).value, ReadFrame(Id, false)]
      ensures bus.regs == Stored(Stored(old(bus.regs), ResetBurst()), WriteFrame(ChMap(0), 0x0001).value)
      ensures r.Success? <==> IsAd7124Id(old(bus.regs)[Value(Id)])
      ensures r.Success? ==> r.value.bus == bus
      ensures r.Failure? ==> r.error == OSError(NotAnAd7124)
    {
      var d := new Ad7124Driver.Attach(bus);
      ghost var regs0 := bus.regs;
      d.Reset();
      ResetKeepsId(regs0);
      var id := d.ReadId();
      if !IsAd7124Id(id) {
        r := Failure(OSError(NotAnAd7124));
      } else {
        r := Success(d);
      }
    }

    /** `_read_register`: the read command, then one zero byte per register
        byte and one more for the status byte when it is asked for; the
        reply to that frame is returned. */
    method ReadRegisterBytes(reg: RegName, statusByte: bool) returns (result: seq<byte>)
      requires bus.Valid()
      modifies bus
      ensures bus.Valid() && bus.regs == old(bus.regs)
      ensures bus.log == old(bus.log) + [ReadFrame(reg, statusByte)]
      ensures result == Reply(old(bus.regs), ReadFrame(reg, statusByte))
    {
      var toSend: seq<byte> := [];
      var command := BuildCommand(Value(reg), true);
      toSend := toSend + [command];
      var numBytes := Size(reg);
      if statusByte {
        numBytes := numBytes + 1;
      }
      var value := 0;
      var valueBytes := ToBytes(value, numBytes);
      ReadFrameBytes(reg, statusByte, numBytes);
      assert toSend == [command];
      toSend := toSend + valueBytes.value;
      ReadFrameStoresNothing(bus.regs, reg, statusByte);
      result := bus.Transfer(toSend);
    }

    /** `write_register`: the write command followed by the value in the
        register's width; a value that does not fit raises OverflowError in
        `to_bytes`, before anything is sent. */
    method WriteRegister(reg: RegName, value: int) returns (outcome: Outcome)
      requires bus.Valid()
      modifies bus
      ensures bus.Valid()
      ensures WriteFrame(reg, value).Success? ==>
        outcome == Pass && bus.log == old(bus.log) + [WriteFrame(reg, value).value] &&
        bus.regs == Stored(old(bus.regs), WriteFrame(reg, value).value)
      ensures WriteFrame(reg, value).Failure? ==>
        outcome == Fail(OverflowError) && bus.log == old(bus.log) && bus.regs == old(bus.regs)
    {
      var toSend: seq<byte> := [];
      var command := BuildCommand(Value(reg), false);
      toSend := toSend + [command];
      var numBytes := Size(reg);
      var valueBytes := ToBytes(value, numBytes);
      if valueBytes.Failure? {
        return Fail(valueBytes.error);
      }
      toSend := toSend + valueBytes.value;
      assert toSend == WriteFrame(reg, value).value;
      bus.Write(toSend);
      outcome := Pass;
    }

    /** `write_register` handed whatever the caller computed: a member, or
        the plain int that `member + offset` gives, whose missing `.value`
        raises AttributeError in `_build_command` before anything is sent. */
    method WriteRegisterArg(arg: RegArg, value: int) returns (outcome: Outcome)
      requires bus.Valid()
      modifies bus
      ensures bus.Valid()
      ensures arg.Member? && WriteFrame(arg.reg, value).Success? ==>
        outcome == Pass && bus.log == old(bus.log) + [WriteFrame(arg.reg, value).value] &&
        bus.regs == Stored(old(bus.regs), WriteFrame(arg.reg, value).value)
      ensures arg.Member? && WriteFrame(arg.reg, value).Failure? ==>
        outcome == Fail(OverflowError) && bus.log == old(bus.log) && bus.regs == old(bus.regs)
      ensures arg.PlainInt? ==>
        outcome == Fail(AttributeError) && bus.log == old(bus.log) && bus.regs == old(bus.regs)
    {
      var command := CommandFor(arg, false);
      if command.Failure? {
        return Fail(command.error);
      }
      outcome := WriteRegister(arg.reg, value);
    }

    /** `read_register`: the register's value, as the device holds it. */
    method ReadRegister(reg: RegName) returns (value: nat)
      requires bus.Valid()
      modifies bus
      ensures bus.Valid() && bus.regs == old(bus.regs)
      ensures bus.log == old(bus.log) + [ReadFrame(reg, false)]
      ensures value == old(bus.regs)[Value(reg)]
    {
      ghost var regs0 := bus.regs;
      var result := ReadRegisterBytes(reg, false);
      value := DataToInt(result);
      ReplyRead(regs0, reg);
    }

    /** `read_id`: the identity register. */
    method ReadId() returns (id: nat)
      requires bus.Valid()
      modifies bus
      ensures bus.Valid() && bus.regs == old(bus.regs)
      ensures bus.log == old(bus.log) + [ReadFrame(Id, false)]
      ensures id == old(bus.regs)[Value(Id)]
    {
      FromValueOfValue(Id);
      var registerEnum := FromValue(Value(Id)).value;
      id := ReadRegister(registerEnum);
    }

    /** `reset`: 64 ones on DIN, then channel 0 (enabled after a reset) is
        written back to 0x0001, the default of the other channels. */
    method Reset()
      requires bus.Valid()
      modifies bus
      ensures bus.Valid()
      ensures bus.log == old(bus.log) + [ResetBurst(), WriteFrame(ChMap(0), 0x0001).value]
      ensures bus.regs == Stored(Stored(old(bus.regs), ResetBurst()), WriteFrame(ChMap(0), 0x0001).value)
    {
      bus.Write(ResetBurst());
      ChannelBlock(0);
      Pow256Values();
      var _ := WriteRegister(ChMap(0), 0x0001);
    }

    /** `read_status` as written: the flags of the status register, set one
        by one from bits 7, 6 and 4; the channel is its own initial 0, masked. */
    method ReadStatusAsWritten() returns (status: StatusFlags)
      requires bus.Valid()
      modifies bus
      ensures bus.Valid() && bus.regs == old(bus.regs)
      ensures bus.log == old(bus.log) + [ReadFrame(Registers.Status, false)]
      ensures status == StatusAsWritten(old(bus.regs)[Value(Registers.Status)])
    {
      var ready := true;
      var error := false;
      var powerOnReset := false;
      var activeChannel := 0;
      var value := ReadRegister(Registers.Status);
      if BitSet(value, 0x80) {
        ready := false;
      }
      if BitSet(value, 0x40) {
        error := true;
      }
      if BitSet(value, 0x10) {
        powerOnReset := true;
      }
      activeChannel := AndMask(activeChannel, 0x0F);
      status := StatusFlags(ready, error, powerOnReset, activeChannel);
    }

    /** `read_status` with the channel taken from the status value, bits 3:0,
        as the mask it applies is meant to: every field the datasheet gives
        the status register is reported. */
    method ReadStatus() returns (status: StatusFlags)
      requires bus.Valid()
      modifies bus
      ensures bus.Valid() && bus.regs == old(bus.regs)
      ensures bus.log == old(bus.log) + [ReadFrame(Registers.Status, false)]
      ensures status == DecodeStatus(old(bus.regs)[Value(Registers.Status)])
    {
      var ready := true;
      var error := false;
      var powerOnReset := false;
      var activeChannel := 0;
      var value := ReadRegister(Registers.Status);
      if BitSet(value, 0x80) {
        ready := false;
      }
      if BitSet(value, 0x40) {
        error := true;
      }
      if BitSet(value, 0x10) {
        powerOnReset := true;
      }
      activeChannel := AndMask(value, 0x0F);
      status := StatusFlags(ready, error, powerOnReset, activeChannel);
    }

    /** `read_register_with_status`: the value from the bytes before the last,
        the status from the last byte. The part sends the status register
        there only after a DATA read with DATA_STATUS set, the condition the
        driver leaves to its caller. */
    method ReadRegisterWithStatus(reg: RegName) returns (value: nat, status: byte)
      requires bus.Valid()
      modifies bus
      ensures bus.Valid() && bus.regs == old(bus.regs)
      ensures bus.log == old(bus.log) + [ReadFrame(reg, true)]
      ensures value == old(bus.regs)[Value(reg)]
      ensures reg == Data && DataStatusOn(old(bus.regs)) ==> status == old(bus.regs)[Value(Registers.Status)]
      ensures !(reg == Data && DataStatusOn(old(bus.regs))) ==> status == 0
    {
      ghost var regs0 := bus.regs;
      var result := ReadRegisterBytes(reg, true);
      value := DataToInt(result[..|result| - 1]);
      status := result[|result| - 1];
      ReplyReadWithStatus(regs0, reg);
    }

    /** One pass of the loop in `read_data_wait`: read the status, and read
        DATA when a conversion is ready and no error is flagged. */
    method ReadDataStep() returns (done: bool, channelNumber: int, intValue: nat)
      requires bus.Valid()
      modifies bus
      ensures bus.Valid() && bus.regs == old(bus.regs)
      ensures var s := DecodeStatus(old(bus.regs)[Value(Registers.Status)]);
        done == (s.ready && !s.error) && channelNumber == s.activeChannel
      ensures done ==> (intValue == old(bus.regs)[Value(Data)] &&
        bus.log == old(bus.log) + [ReadFrame(Registers.Status, false), ReadFrame(Data, false)])
      ensures !done ==> (intValue == 0 && bus.log == old(bus.log) + [ReadFrame(Registers.Status, false)])
    {
      channelNumber := -1;
      intValue := 0;
      var status := ReadStatus();
      channelNumber := status.activeChannel;
      if status.ready && !status.error {
        intValue := ReadRegister(Data);
        done := true;
      } else {
        done := false;
      }
    }

    /** `set_channel`: pack the channel word, and write it to
        `AD7124RegNames(CH0_MAP_REG + channel)` when the channel is 0..15;
        otherwise raise ValueError and send nothing. */
    method SetChannel(channel: int, enable: bool, setup: int, ainp: int, ainm: int) returns (outcome: Outcome)
      requires bus.Valid()
      modifies bus
      ensures bus.Valid()
      ensures 0 <= channel <= 15 ==>
        var w := ChannelWord(ChannelMap(enable, AndMask(setup, 0x07), AndMask(ainp, 0x1F), AndMask(ainm, 0x1F)));
        outcome == Pass &&
        bus.log == old(bus.log) + [WriteFrame(ChMap(channel), w).value] &&
        bus.regs == old(bus.regs)[0x09 + channel := w]
      ensures !(0 <= channel <= 15) ==>
        outcome == Fail(ValueError(ChannelOutOfRange)) && bus.log == old(bus.log) && bus.regs == old(bus.regs)
    {
      var value := PackChannel(enable, setup, ainp, ainm);
      if 0 <= channel <= 15 {
        ChannelBlock(channel);
        Pow256Values();
        WriteStores(bus.regs, ChMap(channel), value);
        var registerEnum := FromValue(Value(ChMap(0)) + channel).value;
        outcome := WriteRegister(registerEnum, value);
      } else {
        outcome := Fail(ValueError(ChannelOutOfRange));
      }
    }

    /** `set_channel` as written: the target `CH0_MAP_REG + channel` is a
        plain int, so an in-range channel fails in `write_register` with
        AttributeError and nothing is sent. */
    method SetChannelAsWritten(channel: int, enable: bool, setup: int, ainp: int, ainm: int) returns (outcome: Outcome)
      requires bus.Valid()
      modifies bus
      ensures bus.Valid() && bus.log == old(bus.log) && bus.regs == old(bus.regs)
      ensures 0 <= channel <= 15 ==> outcome == Fail(AttributeError)
      ensures !(0 <= channel <= 15) ==> outcome == Fail(ValueError(ChannelOutOfRange))
    {
      var value := PackChannel(enable, setup, ainp, ainm);
      if 0 <= channel <= 15 {
        var registerEnum := AddOffset(ChMap(0), channel);
        outcome := WriteRegisterArg(registerEnum, value);
      } else {
        outcome := Fail(ValueError(ChannelOutOfRange));
      }
    }

    /** `_write_setup` as written: `CFG0_REG + setup` is a plain int, so an
        in-range setup fails in `write_register` with AttributeError and
        nothing is sent. */
    method WriteSetupAsWritten(setup: int, value: int) returns (outcome: Outcome)
      requires bus.Valid()
      modifies bus
      ensures bus.Valid() && bus.log == old(bus.log) && bus.regs == old(bus.regs)
      ensures 0 <= setup <= 7 ==> outcome == Fail(AttributeError)
      ensures !(0 <= setup <= 7) ==> outcome == Fail(ValueError(SetupOutOfRange))
    {
      if 0 <= setup <= 7 {
        var registerEnum := AddOffset(Cfg(0), setup);
        outcome := WriteRegisterArg(registerEnum, value);
      } else {
        outcome := Fail(ValueError(SetupOutOfRange));
      }
    }

    /** `_write_setup`, for the register block it is meant to address (the
        driver always passes CFG0_REG): write register `setup` of the block
        when the setup is 0..7, otherwise raise ValueError and send nothing. */
    method WriteSetup(block: SetupBlock, setup: int, value: int) returns (outcome: Outcome)
      requires bus.Valid()
      modifies bus
      ensures bus.Valid()
      ensures 0 <= setup <= 7 && WriteFrame(SetupReg(block, setup), value).Success? ==>
        outcome == Pass &&
        bus.log == old(bus.log) + [WriteFrame(SetupReg(block, setup), value).value] &&
        bus.regs == old(bus.regs)[Value(SetupReg(block, setup)) := value]
      ensures 0 <= setup <= 7 && WriteFrame(SetupReg(block, setup), value).Failure? ==>
        outcome == Fail(OverflowError) && bus.log == old(bus.log) && bus.regs == old(bus.regs)
      ensures !(0 <= setup <= 7) ==>
        outcome == Fail(ValueError(SetupOutOfRange)) && bus.log == old(bus.log) && bus.regs == old(bus.regs)
    {
      if 0 <= setup <= 7 {
        SetupRegOfBase(block, setup);
        if 0 <= value < Pow256(Size(SetupReg(block, setup))) {
          WriteStores(bus.regs, SetupReg(block, setup), value);
        }
        var registerEnum := FromValue(Value(BlockBase(block)) + setup).value;
        outcome := WriteRegister(registerEnum, value);
      } else {
        outcome := Fail(ValueError(SetupOutOfRange));
      }
    }

    /** `set_setup_config`: pack the configuration word and write it to
        CFG`setup`. */
    method SetSetupConfig(setup: int, bipolar: bool := true, burnout: int := 0, refBufP: bool := false,
                          refBufM: bool := false, ainBufP: bool := true, ainBufM: bool := true,
                          refSel: int := 0, pga: int := 0) returns (outcome: Outcome)
      requires bus.Valid()
      modifies bus
      ensures bus.Valid()
      ensures 0 <= setup <= 7 ==>
        var w := ConfigWord(SetupConfig(bipolar, AndMask(burnout, 0x03), refBufP, refBufM,
                                        ainBufP, ainBufM, AndMask(refSel, 0x03), AndMask(pga, 0x07)));
        outcome == Pass &&
        bus.log == old(bus.log) + [WriteFrame(Cfg(setup), w).value] &&
        bus.regs == old(bus.regs)[0x19 + setup := w]
      ensures !(0 <= setup <= 7) ==>
        outcome == Fail(ValueError(SetupOutOfRange)) && bus.log == old(bus.log) && bus.regs == old(bus.regs)
    {
      var value := PackConfig(bipolar, burnout, refBufP, refBufM, ainBufP, ainBufM, refSel, pga);
      if 0 <= setup <= 7 {
        CfgBlock(setup);
        Pow256Values();
      }
      outcome := WriteSetup(ConfigRegs, setup, value);
    }

    /** `set_setup_filter`, writing the filter word to FILT`setup`. */
    method SetSetupFilter(setup: int, filterType: int := 0, rej60: bool := false, postFilter: int := 6,
                          singleCycle: bool := false, outputDataRate: int := 0x180) returns (outcome: Outcome)
      requires bus.Valid()
      modifies bus
      ensures bus.Valid()
      ensures 0 <= setup <= 7 ==>
        var w := FilterWord(FilterConfig(AndMask(filterType, 0x07), rej60, AndMask(postFilter, 0x07),
                                         singleCycle, AndMask(outputDataRate, 0x7FF)));
        outcome == Pass &&
        bus.log == old(bus.log) + [WriteFrame(Filt(setup), w).value] &&
        bus.regs == old(bus.regs)[0x21 + setup := w]
      ensures !(0 <= setup <= 7) ==>
        outcome == Fail(ValueError(SetupOutOfRange)) && bus.log == old(bus.log) && bus.regs == old(bus.regs)
    {
      var value := PackFilter(filterType, rej60, postFilter, singleCycle, outputDataRate);
      if 0 <= setup <= 7 {
        FiltBlock(setup);
        Pow256Values();
      }
      outcome := WriteSetup(FilterRegs, setup, value);
    }

    /** `set_setup_filter` as it routes its word: `_write_setup` always addresses
        the configuration bank, so the filter word goes to the two-byte CFG`setup`
        (the member taken as WriteSetup takes it). */
    method SetSetupFilterToCfg(setup: int, filterType: int := 0, rej60: bool := false, postFilter: int := 6,
                               singleCycle: bool := false, outputDataRate: int := 0x180) returns (outcome: Outcome)
      requires bus.Valid()
      modifies bus
      ensures bus.Valid()
      ensures var w := FilterWord(FilterConfig(AndMask(filterType, 0x07), rej60, AndMask(postFilter, 0x07),
                                               singleCycle, AndMask(outputDataRate, 0x7FF)));
        0 <= setup <= 7 ==>
        (w < 0x1_0000 ==> (outcome == Pass &&
          bus.log == old(bus.log) + [WriteFrame(Cfg(setup), w).value] &&
          bus.regs == old(bus.regs)[0x19 + setup := w])) &&
        (w >= 0x1_0000 ==> outcome == Fail(OverflowError) && bus.log == old(bus.log) && bus.regs == old(bus.regs))
      ensures !(0 <= setup <= 7) ==>
        outcome == Fail(ValueError(SetupOutOfRange)) && bus.log == old(bus.log) && bus.regs == old(bus.regs)
    {
      var value := PackFilter(filterType, rej60, postFilter, singleCycle, outputDataRate);
      if 0 <= setup <= 7 {
        CfgBlock(setup);
        Pow256Values();
      }
      outcome := WriteSetup(ConfigRegs, setup, value);
    }

    /** `set_setup_offset`, writing the low 24 bits to OFFS`setup`. */
    method SetSetupOffset(setup: int, newOffset: int) returns (outcome: Outcome)
      requires bus.Valid()
      modifies bus
      ensures bus.Valid()
      ensures 0 <= setup <= 7 ==>
        outcome == Pass &&
        bus.log == old(bus.log) + [WriteFrame(Offs(setup), AndMask(newOffset, 0xFF_FFFF)).value] &&
        bus.regs == old(bus.regs)[0x29 + setup := AndMask(newOffset, 0xFF_FFFF)]
      ensures !(0 <= setup <= 7) ==>
        outcome == Fail(ValueError(SetupOutOfRange)) && bus.log == old(bus.log) && bus.regs == old(bus.regs)
    {
      var value := PackWord24(newOffset);
      if 0 <= setup <= 7 {
        OffsBlock(setup);
        Pow256Values();
      }
      outcome := WriteSetup(OffsetRegs, setup, value);
    }

    /** `set_setup_offset` as it routes its word: `_write_setup` always addresses
        the configuration bank, so the offset goes to the two-byte CFG`setup`
        (the member taken as WriteSetup takes it). */
    method SetSetupOffsetToCfg(setup: int, newOffset: int) returns (outcome: Outcome)
      requires bus.Valid()
      modifies bus
      ensures bus.Valid()
      ensures var w := AndMask(newOffset, 0xFF_FFFF);
        0 <= setup <= 7 ==>
        (w < 0x1_0000 ==> (outcome == Pass &&
          bus.log == old(bus.log) + [WriteFrame(Cfg(setup), w).value] &&
          bus.regs == old(bus.regs)[0x19 + setup := w])) &&
        (w >= 0x1_0000 ==> outcome == Fail(OverflowError) && bus.log == old(bus.log) && bus.regs == old(bus.regs))
      ensures !(0 <= setup <= 7) ==>
        outcome == Fail(ValueError(SetupOutOfRange)) && bus.log == old(bus.log) && bus.regs == old(bus.regs)
    {
      var value := PackWord24(newOffset);
      if 0 <= setup <= 7 {
        CfgBlock(setup);
        Pow256Values();
      }
      outcome := WriteSetup(ConfigRegs, setup, value);
    }

    /** `set_setup_gain`, writing the low 24 bits to GAIN`setup`. */
    method SetSetupGain(setup: int, newGain: int) returns (outcome: Outcome)
      requires bus.Valid()
      modifies bus
      ensures bus.Valid()
      ensures 0 <= setup <= 7 ==>
        outcome == Pass &&
        bus.log == old(bus.log) + [WriteFrame(Gain(setup), AndMask(newGain, 0xFF_FFFF)).value] &&
        bus.regs == old(bus.regs)[0x31 + setup := AndMask(newGain, 0xFF_FFFF)]
      ensures !(0 <= setup <= 7) ==>
        outcome == Fail(ValueError(SetupOutOfRange)) && bus.log == old(bus.log) && bus.regs == old(bus.regs)
    {
      var value := PackWord24(newGain);
      if 0 <= setup <= 7 {
        GainBlock(setup);
        Pow256Values();
      }
      outcome := WriteSetup(GainRegs, setup, value);
    }

    /** `set_setup_gain` as it routes its word: `_write_setup` always addresses
        the configuration bank, so the gain goes to the two-byte CFG`setup`
        (the member taken as WriteSetup takes it). */
    method SetSetupGainToCfg(setup: int, newGain: int) returns (outcome: Outcome)
      requires bus.Valid()
      modifies bus
      ensures bus.Valid()
      ensures var w := AndMask(newGain, 0xFF_FFFF);
        0 <= setup <= 7 ==>
        (w < 0x1_0000 ==> (outcome == Pass &&
          bus.log == old(bus.log) + [WriteFrame(Cfg(setup), w).value] &&
          bus.regs == old(bus.regs)[0x19 + setup := w])) &&
        (w >= 0x1_0000 ==> outcome == Fail(OverflowError) && bus.log == old(bus.log) && bus.regs == old(bus.regs))
      ensures !(0 <= setup <= 7) ==>
        outcome == Fail(ValueError(SetupOutOfRange)) && bus.log == old(bus.log) && bus.regs == old(bus.regs)
    {
      var value := PackWord24(newGain);
      if 0 <= setup <= 7 {
        CfgBlock(setup);
        Pow256Values();
      }
      outcome := WriteSetup(ConfigRegs, setup, value);
    }

    /** `set_adc_control`: pack the control word and write it to ADC_CTRL_REG. */
    method SetAdcControl(doutRdyDel: bool := false, contRead: bool := false, dataStatus: bool := false,
                         notCsEn: bool := false, refEn: bool := false, powerMode: int := 0, mode: int := 0,
                         clockSelect: int := 0) returns (outcome: Outcome)
      requires bus.Valid()
      modifies bus
      ensures bus.Valid()
      ensures var w := ControlWord(AdcControl(doutRdyDel, contRead, dataStatus, notCsEn, refEn,
                                              AndMask(powerMode, 0x03), AndMask(mode, 0x0F), AndMask(clockSelect, 0x03)));
        outcome == Pass &&
        bus.log == old(bus.log) + [WriteFrame(AdcCtrl, w).value] &&
        bus.regs == old(bus.regs)[Value(AdcCtrl) := w]
    {
      var value := PackControl(doutRdyDel, contRead, dataStatus, notCsEn, refEn, powerMode, mode, clockSelect);
      assert Size(AdcCtrl) == 2 && Access(AdcCtrl) == ReadWrite;
      Pow256Values();
      WriteStores(bus.regs, AdcCtrl, value);
      outcome := WriteRegister(AdcCtrl, value);
    }
  }

  /** The configuration register holds two bytes, so a filter word sent there
      fits exactly when the filter type, rej60, the post filter and
      single_cycle are all zero: only the output data rate survives. */
  lemma FilterWordFitsCfg(f: FilterConfig)
    requires ValidFilterConfig(f)
    ensures WriteFrame(Cfg(0), FilterWord(f)).Success? <==>
      (f.filterType == 0 && !f.rej60 && f.postFilter == 0 && !f.singleCycle)
  {
    CfgBlock(0);
    Pow256Values();
  }

  /** Words that cannot reach a CFG register: the filter word of the
      driver's default arguments (post filter 6, rate 0x180), and the reset
      values of the offset and gain registers. */
  lemma SetupWordsOverflowCfg(setup: SetupIndex)
    ensures FilterWord(DefaultFilter) == 0x0C_0180
    ensures WriteFrame(Cfg(setup), FilterWord(DefaultFilter)) == Failure(OverflowError)
    ensures WriteFrame(Cfg(setup), Initial(Offs(setup))) == Failure(OverflowError)
    ensures WriteFrame(Cfg(setup), Initial(Gain(setup))) == Failure(OverflowError)
  {
    assert FilterWord(DefaultFilter) == 0x0C_0180 by { DefaultWords(); }
    assert Size(Cfg(setup)) == 2 by { CfgBlock(setup); }
    assert Pow256(2) == 0x1_0000 by { Pow256Values(); }
    assert Initial(Offs(setup)) == 0x80_0000 by { OffsBlock(setup); }
    assert Initial(Gain(setup)) == 0x50_0000 by { GainBlock(setup); }
  }

  /** Writing the control word sets DATA_STATUS exactly as its flag says, so
      after `set_adc_control(data_status=True)` a DATA read carries the
      status byte that `read_register_with_status` expects. */
  lemma DataStatusAfterControl(regs: seq<nat>, c: AdcControl)
    requires RegFileValid(regs) && ValidAdcControl(c)
    ensures RegFileValid(Stored(regs, WriteFrame(AdcCtrl, ControlWord(c)).value))
    ensures DataStatusOn(Stored(regs, WriteFrame(AdcCtrl, ControlWord(c)).value)) <==> c.dataStatus
  {
    var w := ControlWord(c);
    assert Access(AdcCtrl) == ReadWrite && Size(AdcCtrl) == 2 && Value(AdcCtrl) == 1;
    Pow256Values();
    StoredValid(regs, WriteFrame(AdcCtrl, w).value);
    WriteStores(regs, AdcCtrl, w);
    ControlFieldsOfWord(c);
  }
}
