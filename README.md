# AD7124-8 register access, modelled in Dafny

This project models how the Python driver for the AD7124-8 sigma-delta ADC
(`ad7124/ad7124driver.py`, with the register map in `ad7124/ad7124registers.py`)
talks to the part. It covers:

- the register-name enum and the 57-row register table (initial value, width,
  access code) with its `access`/`initial`/`size` look-ups;
- the command byte, and the frames `_read_register` and `write_register` send;
- big-endian decoding of a response (`_data_to_int`), and the split into value
  and status byte (`read_register_with_status`);
- the status flags `read_status` returns;
- the `value |=` packers of `set_channel`, `set_setup_config`,
  `set_setup_filter`, `set_setup_offset`, `set_setup_gain` and
  `set_adc_control`, with the channel (0..15) and setup (0..7) range checks;
- `reset`, `read_id` and the identity check of the constructor (0x14 or 0x16).

The SPI link is a class, `FakeBus.RegisterFileBus`. It holds one value per
table row and logs every frame sent. It answers a read command with 0xFF while
the command byte goes out, then the register's bytes, most significant first.
After a DATA read with DATA_STATUS (bit 10 of ADC_CTRL) set, the status
register follows; any further clocks read zero. With it, every driver method
states both the frames it sends and the effect they have. Examples: a written
value reads back, a reset restores every read/write register, and `read_id`
returns what the identity register holds.

Modules, one file each:

- `errors.dfy`: the Python exceptions the driver can raise, `Option` and `Result`.
- `bits.dfy`: masks with 2^w - 1, single-bit tests, and Python's `|` on
  non-negative ints (`Or`). Also the lemma that OR-ing a field into clear
  bits adds it.
- `bytes.dfy`: `int.to_bytes(n, "big")`, including its OverflowError, and the
  big-endian value of a byte string.
- `registers.dfy`: the enum, the table and the look-ups. Also the unit tests'
  facts about them, and the plain int that `member + offset` gives.
- `layouts.dfy`: the bit layouts of the channel, configuration, filter and
  ADC-control registers. Each has a word function, a field read-back function,
  and both round trips.
- `protocol.dfy`: the command byte, the frames, response decoding and status
  decoding.
- `fakebus.dfy`: the register-file stand-in for the bus and the device.
- `packers.dfy`: the `value |=` chains as the driver runs them, step by step.
- `driver.dfy`: `DataToInt` and the class `Ad7124Driver`.

Python ints are unbounded and non-negative wherever the driver ORs them, so
they are modelled as `int`/`nat`. Python's `x & (2^w - 1)` is Dafny's
Euclidean `x % 2^w`, which agrees for negative `x` too.

The registers are modelled as follows:

- Each enum member is a constructor of `Registers.RegName`. The sixteen
  channel maps and the four banks of eight setup registers take their index:
  `ChMap(15)` is CH15_MAP_REG and `Cfg(7)` is CFG7_REG.
- STATUS_REG has the same value as COMM_REG, so in an `IntEnum` it is an alias
  for that member. It is modelled as `Registers.Status == Comm`.
- The table is defined bank by bank. `Registers.TableRows` lists its 57 rows
  one by one, as the register module does.

The AD7124-8 status register reports the channel of the latest conversion
in CH_ACTIVE, bits 3:0, and `read_status` applies a 0x0F mask for it
(ad7124/ad7124driver.py:145), but to its own initial 0 rather than to the
status value. So it reports channel 0 whatever the status byte says. The model
follows the code in `ReadStatusAsWritten` and records the difference under
Findings.

One thing follows from the contracts about the internal-temperature test
(`test_internal_temperature.py`, lines 27-38 of that file). It passes register
members (`CFG7_REG`, which is 0x20, and `CH15_MAP_REG`, which is 0x18) where
`set_setup_config` and `set_channel` expect an index. By `SetSetupConfig` and
`SetChannel`, such calls raise ValueError and send nothing.

## Model

| member | source | states |
|---|---|---|
| Registers.Value | ad7124/ad7124registers.py:13-69 | every member's address is in the table's range 0x00..0x38 |
| Registers.EnumValues | ad7124/ad7124registers.py:13-21 | COMM_REG, STATUS_REG (alias of COMM_REG) and ADC_CTRL_REG to ERREN_REG have the declared values 0x00..0x07 |
| Registers.ChannelEnumValues | ad7124/ad7124registers.py:22-37 | CH0_MAP_REG..CH15_MAP_REG are 0x09..0x18, each as declared |
| Registers.ConfigEnumValues | ad7124/ad7124registers.py:38-45 | CFG0_REG..CFG7_REG are 0x19..0x20, each as declared |
| Registers.FilterEnumValues | ad7124/ad7124registers.py:46-53 | FILT0_REG..FILT7_REG are 0x21..0x28, each as declared |
| Registers.OffsetEnumValues | ad7124/ad7124registers.py:54-61 | OFFS0_REG..OFFS7_REG are 0x29..0x30, each as declared |
| Registers.GainEnumValues | ad7124/ad7124registers.py:62-69 | GAIN0_REG..GAIN7_REG are 0x31..0x38, each as declared |
| Registers.FromValue | ad7124/ad7124registers.py:7-69 | `AD7124RegNames(a)` finds a member exactly when a is 0x00..0x07 or 0x09..0x38, and none for 0x08 or outside the range; the member found has value a |
| Registers.FromValueOfValue | ad7124/ad7124registers.py:13-69 | looking up a member's value gives that member back |
| Registers.ValueInjective | ad7124/ad7124registers.py:13-69 | two members have the same value only when they are the same member, STATUS_REG being COMM_REG |
| Registers.TableRows | ad7124/ad7124registers.py:74-133 | the table's rows, one for each address 0x00..0x38, as (initial, size, access) |
| Registers.RowAt | ad7124/ad7124registers.py:74-133 | every row of the table has a width of one to three bytes and an access code that is either read/write or read-only |
| Registers.ReadOnlyRows | ad7124/ad7124registers.py:76-132 | a row is read-only exactly at 0x00 (STATUS/COMM), 0x02 (DATA), 0x05 (ID), 0x06 (ERROR) and the unnamed 0x08; every other row is read/write |
| Registers.TableWellFormed | ad7124/ad7124registers.py:76-132 | every row has a size of 1, 2 or 3, an access code of 1 or 2, and an initial value below 256^size |
| Registers.Access | ad7124/ad7124registers.py:136-144 | `access(r)` is the row's access code, 1 (read/write) or 2 (read-only) |
| Registers.Initial | ad7124/ad7124registers.py:146-154 | `initial(r)` is the row's reset value, which fits the register's width |
| Registers.Size | ad7124/ad7124registers.py:156-164 | `size(r)` is the row's width, one to three bytes |
| Registers.ChannelBlock | ad7124/ad7124registers.py:85-100 | CHn_MAP is at 0x09 + n and is `AD7124RegNames(CH0_MAP_REG + n)`; it is read/write and 2 bytes wide, with default 0x8001 for CH0 and 0x0001 for the others |
| Registers.CfgBlock | ad7124/ad7124registers.py:101-108 | CFGn is at 0x19 + n and is reached from CFG0_REG + n; it is read/write, 2 bytes wide, default 0x0860 |
| Registers.FiltBlock | ad7124/ad7124registers.py:109-116 | FILTn is at 0x21 + n; read/write, 3 bytes wide, default 0x060180 |
| Registers.OffsBlock | ad7124/ad7124registers.py:117-124 | OFFSn is at 0x29 + n; read/write, 3 bytes wide, default 0x800000 |
| Registers.GainBlock | ad7124/ad7124registers.py:125-132 | GAINn is at 0x31 + n; read/write, 3 bytes wide, default 0x500000 |
| Registers.SetupRegOfBase | ad7124/ad7124registers.py:101-132 | adding a setup index to the first register of a bank reaches that bank's register n, which is read/write and is 2 bytes wide for CFG and 3 for the other banks |
| Registers.IdAndFilterRows | test/test_ad7124registers.py:16-40 | ID_REG is read-only, initial 0x02, 1 byte; FILT0_REG is read/write, initial 0x060180, 3 bytes |
| Registers.AddOffset | ad7124/ad7124registers.py:7-11 | `member + offset` on an IntEnum gives a plain int equal to `member.value + offset` |
| Registers.OffsetsFromFilter0 | test/test_ad7124registers.py:42-62 | FILT0_REG + 1, - 1 and + 3 are the values of FILT1, CFG7 and FILT3 |
| Registers.ValueOf | ad7124/ad7124driver.py:37 | `.value` succeeds exactly on a member and gives its address; on a plain int it raises AttributeError |
| Protocol.BuildCommand | ad7124/ad7124driver.py:28-39 | the command byte is below 0x80, its bit 6 is the read flag, and its low six bits are `address & 0x3F` |
| Protocol.CommandOfMember | ad7124/ad7124driver.py:28-39 | for every named register the write command byte is the address itself and the read command is 0x40 plus the address |
| Protocol.CommandRoundTrip | ad7124/ad7124driver.py:28-39 | the device reads back the masked address and the direction from the command byte |
| Protocol.CommandOfParse | ad7124/ad7124driver.py:28-39 | every byte with bit 7 clear is the command for the address and direction it encodes |
| Protocol.CommandFor | ad7124/ad7124driver.py:28-39 | `_build_command` on any argument: a member gives its command byte, and a plain int raises AttributeError |
| Protocol.PackedTargetHasNoValue | ad7124/ad7124driver.py:218-231 | for every in-range channel and setup, `CH0_MAP_REG + channel` and `CFG0_REG + setup` fail in `_build_command` with AttributeError; `AD7124RegNames` of the same int is CHn_MAP or CFGn |
| Protocol.ReadFrame | ad7124/ad7124driver.py:41-54 | a read frame has 1 + size bytes, or 2 + size with the status byte; it starts with the read command and the rest are zero |
| Protocol.WriteFrame | ad7124/ad7124driver.py:88-106 | a write frame exists exactly when 0 <= value < 256^size; it is 1 + size bytes, starts with the write command and then holds the value big-endian; otherwise to_bytes raises OverflowError |
| Bytes.ToBytes | ad7124/ad7124driver.py:101 | `to_bytes(n, "big")` succeeds exactly on 0 <= value < 256^n, giving n bytes whose big-endian value is `value`; otherwise OverflowError |
| Bytes.DecodeEncode | ad7124/ad7124driver.py:59-66 | reading big-endian bytes back gives the value they encode |
| Bytes.EncodeDecode | ad7124/ad7124driver.py:59-66 | encoding a decoded byte string of length n in n bytes gives the bytes back |
| Protocol.DataValue | ad7124/ad7124driver.py:59-66 | `_data_to_int` drops the first byte and reads the rest, so the result is less than 256^(number of bytes after the first) |
| Protocol.DataValueOfPadded | ad7124/ad7124driver.py:59-66 | `_data_to_int([p] + to_bytes(v, n)) == v` for any padding byte p and any v < 256^n |
| Driver.DataToInt | ad7124/ad7124driver.py:59-66 | the shift-and-OR loop computes `DataValue(data)`, the big-endian value of the bytes after the first |
| Protocol.SplitStatusOfReply | ad7124/ad7124driver.py:160-163 | a response of padding, the value's bytes and a status byte splits into that value and that status |
| Protocol.SplitStatus | ad7124/ad7124driver.py:160-163 | the status is the last byte of the response, and the value is the big-endian number of the bytes strictly between the first and the last |
| Protocol.DecodeStatus | ad7124/ad7124driver.py:121-146 | full decoding of the status register: ready is bit 7 clear, error is bit 6, power-on reset is bit 4, channel is bits 3:0 (below 16) |
| Protocol.DecodeEncodeStatus | ad7124/ad7124driver.py:121-146 | decoding the status byte of any flags (channel below 16) gives those flags back |
| Protocol.EncodeDecodeStatus | ad7124/ad7124driver.py:121-146 | every status byte with bit 5 clear is the encoding of its decoded flags |
| Protocol.StatusAsWrittenDropsChannel | ad7124/ad7124driver.py:121-146 | as written, the reported channel is always 0, so the flags equal the full decoding exactly when the status value's channel nibble is 0 |
| Protocol.StatusAsWritten | ad7124/ad7124driver.py:130-146 | the flags `read_status` builds are the full decoding of the status value with the channel replaced by 0 |
| Protocol.StatusAsWrittenOfEncoded | ad7124/ad7124driver.py:121-146 | as written, reading the status byte of any flags keeps ready, error and power-on reset and loses the channel |
| Protocol.StatusExamples | test_ad7124driver.py:36-49 | the status 0x90 reads as not ready, no error, power-on reset, channel 0, both as written and fully decoded; 0x80, 0x10 and 0x93 read as the datasheet gives them |
| Layouts.ChannelWord | ad7124/ad7124driver.py:204-217 | the channel word is below 0x10000 and its bits 11:10 are zero |
| Layouts.ChannelFieldsOfWord | ad7124/ad7124driver.py:204-217 | the enable bit, setup, ainp and ainm are read back out of the channel word |
| Layouts.ChannelWordOfFields | ad7124/ad7124driver.py:204-217 | every 16-bit word with bits 11:10 clear is the channel word of its fields |
| Layouts.ConfigWord | ad7124/ad7124driver.py:248-263 | the configuration word is below 0x1000: bits 15:12 are zero |
| Layouts.ConfigFieldsOfWord | ad7124/ad7124driver.py:248-263 | the eight configuration fields are read back out of the word |
| Layouts.ConfigWordOfFields | ad7124/ad7124driver.py:248-263 | every 16-bit word with bits 15:12 clear is the configuration word of its fields |
| Layouts.FilterWord | ad7124/ad7124driver.py:280-288 | the filter word is below 0x1000000 and its bits 15:11 are zero |
| Layouts.FilterFieldsOfWord | ad7124/ad7124driver.py:280-288 | filter type, rej60, post filter, single cycle and output data rate are read back out of the word |
| Layouts.FilterWordOfFields | ad7124/ad7124driver.py:280-288 | every 24-bit word with bits 15:11 clear is the filter word of its fields |
| Layouts.ControlWord | ad7124/ad7124driver.py:326-341 | the ADC control word is below 0x2000: bits 15:13 are zero |
| Layouts.ControlFieldsOfWord | ad7124/ad7124driver.py:326-341 | the eight control fields are read back out of the word |
| Layouts.ControlWordOfFields | ad7124/ad7124driver.py:326-341 | every 16-bit word with bits 15:13 clear is the control word of its fields |
| Bits.OrDisjoint | ad7124/ad7124driver.py:204-217 | OR-ing a field below 2^k into a value whose low k bits are clear adds the two |
| Bits.Or | ad7124/ad7124driver.py:204-217 | Python's `a OR b` on non-negative ints is at least each operand and at most their sum |
| Bits.OrInto | ad7124/ad7124driver.py:204-217 | one `value OR= field` step on clear bits gives `value + field` |
| Packers.PackChannel | ad7124/ad7124driver.py:204-217 | the OR-assignment chain of `set_channel` builds the channel word of enable, `setup & 7`, `ainp & 0x1F` and `ainm & 0x1F` |
| Packers.PackConfig | ad7124/ad7124driver.py:248-263 | the chain of `set_setup_config` builds the configuration word of the flags, `burnout & 3`, `ref_sel & 3` and `pga & 7` |
| Packers.PackFilter | ad7124/ad7124driver.py:280-288 | the chain of `set_setup_filter` builds the filter word of `filter_type & 7`, rej60, `post_filter & 7`, single_cycle and `output_data_rate & 0x7FF` |
| Packers.PackWord24 | ad7124/ad7124driver.py:296-298 | the offset and gain setters keep the low 24 bits of their argument |
| Packers.PackControl | ad7124/ad7124driver.py:326-341 | the chain of `set_adc_control` builds the control word of the five flags, `power_mode & 3`, `mode & 0xF` and `clock_select & 3` |
| Packers.DefaultWords | ad7124/ad7124driver.py:233-322 | the default arguments of `set_setup_config`, `set_setup_filter` and `set_adc_control` (`Packers.DefaultConfig`, `DefaultFilter`, `DefaultControl`) pack to 0x0860 (the table's CFG reset value), 0x0C0180 (not the table's 0x060180) and 0 |
| Packers.InternalTemperatureWords | test_internal_temperature.py:28-64 | channel 15 on setup 7 with both inputs 0b10000 is 0xF210; the configuration defaults with bipolar and ref_sel 0b10 are 0x0870; the control defaults with not_cs_en, ref_en and power mode 2 are 0x0380 |
| FakeBus.PowerUp | ad7124/ad7124registers.py:74-133 | at power-up every register holds its table default, except ID and STATUS, which hold what the part reports |
| FakeBus.ResetRegs | ad7124/ad7124driver.py:68-77 | the reset burst puts every read/write register back to its default and leaves the read-only ones |
| FakeBus.RegisterFileBus.Write | ad7124spi.py:53-59 | sending a frame stores what the device takes from it and logs the frame |
| FakeBus.RegisterFileBus.Transfer | ad7124spi.py:41-51 | a transfer returns one byte for each byte sent, as the device answers the frame, and logs the frame |
| FakeBus.StoredValid | ad7124/ad7124driver.py:88-106 | every register holds a value that fits its width, whatever frame is sent |
| FakeBus.ReadFrameStoresNothing | ad7124/ad7124driver.py:41-57 | a read frame leaves every register unchanged |
| FakeBus.WriteStores | ad7124/ad7124driver.py:88-106 | a write frame for a read/write register stores the value there and changes no other register |
| FakeBus.ReadOnlyIgnoresWrite | ad7124/ad7124registers.py:136-144 | a write frame for a read-only register changes nothing |
| FakeBus.ReplyReadAt | ad7124/ad7124driver.py:108-119 | a read frame for any address, padded to the register's width, gets the register's value back after the leading byte |
| FakeBus.ReplyRead | ad7124/ad7124driver.py:108-119 | reading a member returns what the register file holds for it |
| FakeBus.ReplyReadWithStatus | ad7124/ad7124driver.py:148-170 | reading with the extra byte returns the register; the last byte is the status register after a DATA read with DATA_STATUS set, and padding (0) otherwise |
| FakeBus.WriteThenRead | ad7124/ad7124driver.py:88-119 | a value written to a read/write register reads back unchanged |
| FakeBus.ResetThenDisableChannel0 | ad7124/ad7124driver.py:68-77 | after `reset` CH0_MAP holds 0x0001, every other read/write register its default, and every read-only register what it held |
| FakeBus.ResetKeepsId | ad7124/ad7124driver.py:17-26 | `reset` leaves the identity register as it was |
| FakeBus.StatusThroughReset | test_ad7124driver.py:36-49 | the status and identity the part reports at power-up survive `reset`; a part reporting 0x90 then reads as not ready, no error, power-on reset, channel 0, as the driver's test expects |
| Driver.Ad7124Driver.Open | ad7124/ad7124driver.py:17-26 | construction resets the part and reads ID; it succeeds exactly when the ID held before is 0x14 or 0x16, and otherwise raises OSError with the driver's message |
| Protocol.IsAd7124Id | ad7124/ad7124driver.py:23-26 | an identity is accepted exactly when its device nibble (bits 7:4) is 1 and its revision (bits 3:0) is 4 or 6, i.e. 0x14 or 0x16; the table's reset value 0x02 is never accepted |
| Driver.Ad7124Driver.ReadRegisterBytes | ad7124/ad7124driver.py:41-57 | `_read_register` sends exactly the read frame, changes no register and returns the device's answer to it |
| Driver.Ad7124Driver.WriteRegister | ad7124/ad7124driver.py:88-106 | `write_register` sends exactly the write frame when the value fits, and otherwise raises OverflowError and sends nothing |
| Driver.Ad7124Driver.WriteRegisterArg | ad7124/ad7124driver.py:88-106 | `write_register` given a plain int raises AttributeError and sends nothing; given a member it behaves as `WriteRegister` |
| Driver.Ad7124Driver.ReadRegister | ad7124/ad7124driver.py:108-119 | `read_register` sends one read frame and returns the register's value, changing nothing |
| Driver.Ad7124Driver.ReadId | ad7124/ad7124driver.py:79-86 | `read_id` returns the identity register's value |
| Driver.Ad7124Driver.Reset | ad7124/ad7124driver.py:68-77 | `reset` sends the eight 0xFF bytes and then the write of 0x0001 to CH0_MAP, and the registers are what those two frames leave |
| Driver.Ad7124Driver.ReadStatusAsWritten | ad7124/ad7124driver.py:121-146 | as written: ready is bit 7 clear, error is bit 6, power-on reset is bit 4, and the channel is 0 |
| Driver.Ad7124Driver.ReadStatus | ad7124/ad7124driver.py:121-146 | corrected: the flags are the full decoding of the status register, channel included |
| Driver.Ad7124Driver.ReadRegisterWithStatus | ad7124/ad7124driver.py:148-170 | sends the read frame with the extra byte and returns the register's value; the status returned is the status register when DATA is read with DATA_STATUS set (the condition the docstring leaves to the caller), and 0 otherwise |
| Driver.Ad7124Driver.ReadDataStep | ad7124/ad7124driver.py:172-192 | one poll, with the corrected status reader: DATA is read exactly when the status says ready and no error, and the channel comes from the status |
| Driver.Ad7124Driver.SetChannel | ad7124/ad7124driver.py:194-224 | corrected target: for channel 0..15 the channel word of the masked fields is written to CHn_MAP (0x09 + n) and nowhere else; otherwise ValueError and nothing sent |
| Driver.Ad7124Driver.SetChannelAsWritten | ad7124/ad7124driver.py:218-224 | as written: an in-range channel raises AttributeError and nothing is sent; otherwise ValueError |
| Driver.Ad7124Driver.WriteSetup | ad7124/ad7124driver.py:226-231 | corrected target: for setup 0..7 the value goes to register n of the bank meant (OverflowError if it does not fit); otherwise ValueError and nothing sent |
| Driver.Ad7124Driver.WriteSetupAsWritten | ad7124/ad7124driver.py:226-231 | as written: an in-range setup raises AttributeError and nothing is sent; otherwise ValueError |
| Driver.Ad7124Driver.SetSetupConfig | ad7124/ad7124driver.py:233-265 | corrected target (line 228): for setup 0..7 the configuration word of the masked fields is written to CFGn (0x19 + n); otherwise ValueError and nothing sent; as written, an in-range setup raises AttributeError (`WriteSetupAsWritten`) |
| Driver.Ad7124Driver.SetSetupFilter | ad7124/ad7124driver.py:267-290 | corrected bank: for setup 0..7 the filter word is written to FILTn (0x21 + n); otherwise ValueError |
| Driver.Ad7124Driver.SetSetupFilterToCfg | ad7124/ad7124driver.py:267-290 | as routed, with the line-228 target corrected: the filter word goes to CFGn when it fits in two bytes and otherwise raises OverflowError with nothing sent |
| Driver.Ad7124Driver.SetSetupOffset | ad7124/ad7124driver.py:292-300 | corrected bank: for setup 0..7 the low 24 bits of the offset are written to OFFSn (0x29 + n); otherwise ValueError |
| Driver.Ad7124Driver.SetSetupOffsetToCfg | ad7124/ad7124driver.py:292-300 | as routed, with the line-228 target corrected: the offset goes to CFGn when below 0x10000 and otherwise raises OverflowError with nothing sent |
| Driver.Ad7124Driver.SetSetupGain | ad7124/ad7124driver.py:302-310 | corrected bank: for setup 0..7 the low 24 bits of the gain are written to GAINn (0x31 + n); otherwise ValueError |
| Driver.Ad7124Driver.SetSetupGainToCfg | ad7124/ad7124driver.py:302-310 | as routed, with the line-228 target corrected: the gain goes to CFGn when below 0x10000 and otherwise raises OverflowError with nothing sent |
| Driver.Ad7124Driver.SetAdcControl | ad7124/ad7124driver.py:312-343 | the control word of the masked fields is written to ADC_CTRL and nowhere else |
| Driver.FilterWordFitsCfg | ad7124/ad7124driver.py:267-290 | a filter word can be written to a CFG register exactly when filter type, rej60, post filter and single_cycle are all zero |
| Driver.SetupWordsOverflowCfg | ad7124/ad7124driver.py:267-310 | the filter word of the default arguments (`DefaultFilter`, 0x0C0180), and the offset and gain reset values, overflow a CFG register |
| Driver.DataStatusAfterControl | ad7124/ad7124driver.py:312-343 | writing a control word turns the status byte after DATA reads on exactly when its data_status flag is set |

## Left out

- `to_voltage` and `to_temperature` (ad7124/ad7124driver.py:345-392) compute with floating point, which is not modelled.
- `read_data_wait` (ad7124/ad7124driver.py:172-192) loops until ready or until one second of wall-clock time has passed. The clock is not modelled, so `ReadDataStep` models one pass of the loop, with the corrected status reader.
- `reset` sleeps 1 ms between the burst and the CH0 write; timing is not modelled.
- The constructor's SPI open (the `position` argument, pigpio handles) is device I/O. `Open` takes the bus object in its place.
- The real SPI transport is not part of this model. The `FakeBus.RegisterFileBus` stand-in answers frames by the register map; a real part's reply is not checked against it.
- The stand-in's status register holds what the part reports at power-up (a parameter of `FakeBus.PowerUp`) and changes only through the driver's frames: the ready bit falling as conversions complete, and the power-on-reset flag a reset sets, are not modelled.
- Past the register's bytes and the status byte, the stand-in answers zero; what a real part drives on DOUT for such extra clocks is not modelled.
- The packaged driver unpacks `(count, result)` from the bus's `read_register`, and only `result` is used. `Transfer` returns the response alone, the `count` being unused. The root-level `ad7124spi.py` returns only the data.
- The `print` calls in `read_register_with_status` and in the SPI wrapper are console output and are left out.
- The device's own behaviour is modelled only for what the driver sends. Continuous-read mode, the DATA register filling with conversions, and the error register changing by itself are left out. An unrelated frame leaves the register file unchanged.
- The root-level `ad7124registers.py`, `ad7124driver.py`, `ad7124channel.py` and `ad7124setup.py` are superseded or stub variants and are not part of this model. So are the CLI (`voltmeter.py`, `ad7124.py`) and the bench scripts.
- The driver has no acquisition loop, queue or thread; concurrency is not modelled.
- Bits.OrInto: its contract states the OR step as a sum, given that the field lands in clear bits. `Bits.OrDisjoint` proves that fact about `Bits.Or` in general.

## Findings

| source | as written | input that shows it | evidently intended | confidence | as-written member | corrected member |
|---|---|---|---|---|---|---|
| ad7124/ad7124driver.py:221 | `set_channel` passes `CH0_MAP_REG + channel`, a plain int, to `write_register`, and `_build_command` reads its `.value` (line 37) | `set_channel(0, True, 0, 0, 0)` raises AttributeError and writes nothing | write to `AD7124RegNames(CH0_MAP_REG + channel)`, as `read_id` converts at line 84 | high; not executed | Driver.Ad7124Driver.SetChannelAsWritten, Protocol.PackedTargetHasNoValue | Driver.Ad7124Driver.SetChannel |
| ad7124/ad7124driver.py:228 | `_write_setup` passes `CFG0_REG + setup`, a plain int, so every setup setter fails the same way | `set_setup_config(0)` raises AttributeError and writes nothing | write to the member with that value | high; not executed | Driver.Ad7124Driver.WriteSetupAsWritten, Protocol.PackedTargetHasNoValue | Driver.Ad7124Driver.WriteSetup |
| ad7124/ad7124driver.py:290 | `set_setup_filter` hands its 24-bit word to `_write_setup`, which addresses the 2-byte CFG bank | once line 228 is fixed, `set_setup_filter(0)` with the default arguments packs 0x0C0180 and `to_bytes(2)` raises OverflowError, and a word that fits overwrites CFG0; as written, AttributeError | write FILT`setup` (0x21 + setup, 3 bytes) | high; not executed | Driver.Ad7124Driver.SetSetupFilterToCfg, Driver.SetupWordsOverflowCfg | Driver.Ad7124Driver.SetSetupFilter |
| ad7124/ad7124driver.py:300 | `set_setup_offset` also goes through `_write_setup` to CFG | once line 228 is fixed, `set_setup_offset(0, 0x800000)`, the reset offset, raises OverflowError and `set_setup_offset(0, 0x10)` overwrites CFG0; as written, AttributeError | write OFFS`setup` (0x29 + setup) | high; not executed | Driver.Ad7124Driver.SetSetupOffsetToCfg, Driver.SetupWordsOverflowCfg | Driver.Ad7124Driver.SetSetupOffset |
| ad7124/ad7124driver.py:310 | `set_setup_gain` also goes through `_write_setup` to CFG | once line 228 is fixed, `set_setup_gain(0, 0x500000)`, the reset gain, raises OverflowError; as written, AttributeError | write GAIN`setup` (0x31 + setup) | high; not executed | Driver.Ad7124Driver.SetSetupGainToCfg, Driver.SetupWordsOverflowCfg | Driver.Ad7124Driver.SetSetupGain |
| ad7124/ad7124driver.py:145 | `read_status` masks its own initial `active_channel` (0), never the status value | status 0x93 (a conversion on channel 3) is reported as channel 0 | `active_channel = value & 0x0F` | medium; not executed | Driver.Ad7124Driver.ReadStatusAsWritten, Protocol.StatusAsWrittenDropsChannel | Driver.Ad7124Driver.ReadStatus |
