// The AD7124-8 register map: the register-name enum and the table of
// (initial value, size in bytes, access type) rows indexed by address.
module Registers {
  import opened Bytes
  import opened Errors

  /** A channel index, 0..15, and a setup index, 0..7. */
  type ChannelIndex = n: nat | n < 16
  type SetupIndex = n: nat | n < 8

  /** The members of the register-name enum. The sixteen channel maps and the
      four banks of eight setup registers are written with their index:
      `ChMap(3)` is CH3_MAP_REG, `Filt(7)` is FILT7_REG. STATUS_REG is declared
      with the same value as COMM_REG, so in an IntEnum it is an alias of that
      member: `Status`. */
  datatype RegName =
    | Comm | AdcCtrl | Data | IoCtrl1 | IoCtrl2 | Id | Err | ErrEn
    | ChMap(channel: ChannelIndex)
    | Cfg(setup: SetupIndex) | Filt(setup: SetupIndex) | Offs(setup: SetupIndex) | Gain(setup: SetupIndex)

  const Status: RegName := Comm

  /** `member.value`: the address declared for each member. */
  function Value(r: RegName): (a: nat)
    ensures a < RowCount
  {
    match r
    case Comm => 0x00
    case AdcCtrl => 0x01
    case Data => 0x02
    case IoCtrl1 => 0x03
    case IoCtrl2 => 0x04
    case Id => 0x05
    case Err => 0x06
    case ErrEn => 0x07
    case ChMap(n) => 0x09 + n
    case Cfg(n) => 0x19 + n
    case Filt(n) => 0x21 + n
    case Offs(n) => 0x29 + n
    case Gain(n) => 0x31 + n
  }

  /** Every member's value is the constant it is declared with: COMM_REG
      (and its alias STATUS_REG) to ERREN_REG here, at 0x00 to 0x07. */
  lemma EnumValues()
    ensures Value(Comm) == 0x00
    ensures Value(Status) == 0x00
    ensures Value(AdcCtrl) == 0x01
    ensures Value(Data) == 0x02
    ensures Value(IoCtrl1) == 0x03
    ensures Value(IoCtrl2) == 0x04
    ensures Value(Id) == 0x05
    ensures Value(Err) == 0x06
    ensures Value(ErrEn) == 0x07
  {
  }

  /** CH0_MAP_REG to CH15_MAP_REG, at 0x09 to 0x18. */
  lemma ChannelEnumValues()
    ensures Value(ChMap(0)) == 0x09
    ensures Value(ChMap(1)) == 0x0A
    ensures Value(ChMap(2)) == 0x0B
    ensures Value(ChMap(3)) == 0x0C
    ensures Value(ChMap(4)) == 0x0D
    ensures Value(ChMap(5)) == 0x0E
    ensures Value(ChMap(6)) == 0x0F
    ensures Value(ChMap(7)) == 0x10
    ensures Value(ChMap(8)) == 0x11
    ensures Value(ChMap(9)) == 0x12
    ensures Value(ChMap(10)) == 0x13
    ensures Value(ChMap(11)) == 0x14
    ensures Value(ChMap(12)) == 0x15
    ensures Value(ChMap(13)) == 0x16
    ensures Value(ChMap(14)) == 0x17
    ensures Value(ChMap(15)) == 0x18
  {
  }

  /** CFG0_REG to CFG7_REG, at 0x19 to 0x20. */
  lemma ConfigEnumValues()
    ensures Value(Cfg(0)) == 0x19
    ensures Value(Cfg(1)) == 0x1A
    ensures Value(Cfg(2)) == 0x1B
    ensures Value(Cfg(3)) == 0x1C
    ensures Value(Cfg(4)) == 0x1D
    ensures Value(Cfg(5)) == 0x1E
    ensures Value(Cfg(6)) == 0x1F
    ensures Value(Cfg(7)) == 0x20
  {
  }

  /** FILT0_REG to FILT7_REG, at 0x21 to 0x28. */
  lemma FilterEnumValues()
    ensures Value(Filt(0)) == 0x21
    ensures Value(Filt(1)) == 0x22
    ensures Value(Filt(2)) == 0x23
    ensures Value(Filt(3)) == 0x24
    ensures Value(Filt(4)) == 0x25
    ensures Value(Filt(5)) == 0x26
    ensures Value(Filt(6)) == 0x27
    ensures Value(Filt(7)) == 0x28
  {
  }

  /** OFFS0_REG to OFFS7_REG, at 0x29 to 0x30. */
  lemma OffsetEnumValues()
    ensures Value(Offs(0)) == 0x29
    ensures Value(Offs(1)) == 0x2A
    ensures Value(Offs(2)) == 0x2B
    ensures Value(Offs(3)) == 0x2C
    ensures Value(Offs(4)) == 0x2D
    ensures Value(Offs(5)) == 0x2E
    ensures Value(Offs(6)) == 0x2F
    ensures Value(Offs(7)) == 0x30
  {
  }

  /** GAIN0_REG to GAIN7_REG, at 0x31 to 0x38. */
  lemma GainEnumValues()
    ensures Value(Gain(0)) == 0x31
    ensures Value(Gain(1)) == 0x32
    ensures Value(Gain(2)) == 0x33
    ensures Value(Gain(3)) == 0x34
    ensures Value(Gain(4)) == 0x35
    ensures Value(Gain(5)) == 0x36
    ensures Value(Gain(6)) == 0x37
    ensures Value(Gain(7)) == 0x38
  {
  }

  /** `AD7124RegNames(a)`: the member whose value is `a`, if there is one. */
  function FromValue(a: int): (r: Option<RegName>)
    ensures r.None? <==> a < 0 || a == 0x08 || a > 0x38
    ensures r.Some? ==> Value(r.value) == a
  {
    if a < 0 || a == 0x08 || a > 0x38 then None
    else if a == 0x00 then Some(Comm)
    else if a == 0x01 then Some(AdcCtrl)
    else if a == 0x02 then Some(Data)
    else if a == 0x03 then Some(IoCtrl1)
    else if a == 0x04 then Some(IoCtrl2)
    else if a == 0x05 then Some(Id)
    else if a == 0x06 then Some(Err)
    else if a == 0x07 then Some(ErrEn)
    else if a < 0x19 then Some(ChMap(a - 0x09))
    else if a < 0x21 then Some(Cfg(a - 0x19))
    else if a < 0x29 then Some(Filt(a - 0x21))
    else if a < 0x31 then Some(Offs(a - 0x29))
    else Some(Gain(a - 0x31))
  }

  /** Access codes as the table writes them. */
  const ReadWrite: nat := 1
  const ReadOnly: nat := 2

  datatype Row = Row(initial: nat, size: nat, access: nat)

  /** The number of rows: one for each address 0x00..0x38. */
  const RowCount: nat := 0x39

  /** The row for each address. Within a bank the rows repeat: the channel
      maps after CH0, the configurations, the filters, the offsets and the
      gains each share one row. */
  function RowAt(a: nat): (row: Row)
    requires a < RowCount
    ensures 1 <= row.size <= 3 && (row.access == ReadWrite || row.access == ReadOnly)
  {
    if a < 0x09 then
      match a
      case 0x00 => Row(0x00, 1, 2)
      case 0x01 => Row(0x0000, 2, 1)
      case 0x02 => Row(0x0000, 3, 2)
      case 0x03 => Row(0x0000, 3, 1)
      case 0x04 => Row(0x0000, 2, 1)
      case 0x05 => Row(0x02, 1, 2)
      case 0x06 => Row(0x0000, 3, 2)
      case 0x07 => Row(0x0040, 3, 1)
      case 0x08 => Row(0x00, 1, 2)
    else if a == 0x09 then Row(0x8001, 2, 1)
    else if a < 0x19 then Row(0x0001, 2, 1)
    else if a < 0x21 then Row(0x0860, 2, 1)
    else if a < 0x29 then Row(0x060180, 3, 1)
    else if a < 0x31 then Row(0x800000, 3, 1)
    else Row(0x500000, 3, 1)
  }

  /** The table row by row, as the register module lists it: (initial value,
      size, access) for addresses 0x00 to 0x38. */
  lemma TableRows()
    ensures RowAt(0x00) == Row(0x00, 1, 2)
    ensures RowAt(0x01) == Row(0x0000, 2, 1)
    ensures RowAt(0x02) == Row(0x0000, 3, 2)
    ensures RowAt(0x03) == Row(0x0000, 3, 1)
    ensures RowAt(0x04) == Row(0x0000, 2, 1)
    ensures RowAt(0x05) == Row(0x02, 1, 2)
    ensures RowAt(0x06) == Row(0x0000, 3, 2)
    ensures RowAt(0x07) == Row(0x0040, 3, 1)
    ensures RowAt(0x08) == Row(0x00, 1, 2)
    ensures RowAt(0x09) == Row(0x8001, 2, 1)
    ensures RowAt(0x0A) == Row(0x0001, 2, 1)
    ensures RowAt(0x0B) == Row(0x0001, 2, 1)
    ensures RowAt(0x0C) == Row(0x0001, 2, 1)
    ensures RowAt(0x0D) == Row(0x0001, 2, 1)
    ensures RowAt(0x0E) == Row(0x0001, 2, 1)
    ensures RowAt(0x0F) == Row(0x0001, 2, 1)
    ensures RowAt(0x10) == Row(0x0001, 2, 1)
    ensures RowAt(0x11) == Row(0x0001, 2, 1)
    ensures RowAt(0x12) == Row(0x0001, 2, 1)
    ensures RowAt(0x13) == Row(0x0001, 2, 1)
    ensures RowAt(0x14) == Row(0x0001, 2, 1)
    ensures RowAt(0x15) == Row(0x0001, 2, 1)
    ensures RowAt(0x16) == Row(0x0001, 2, 1)
    ensures RowAt(0x17) == Row(0x0001, 2, 1)
    ensures RowAt(0x18) == Row(0x0001, 2, 1)
    ensures RowAt(0x19) == Row(0x0860, 2, 1)
    ensures RowAt(0x1A) == Row(0x0860, 2, 1)
    ensures RowAt(0x1B) == Row(0x0860, 2, 1)
    ensures RowAt(0x1C) == Row(0x0860, 2, 1)
    ensures RowAt(0x1D) == Row(0x0860, 2, 1)
    ensures RowAt(0x1E) == Row(0x0860, 2, 1)
    ensures RowAt(0x1F) == Row(0x0860, 2, 1)
    ensures RowAt(0x20) == Row(0x0860, 2, 1)
    ensures RowAt(0x21) == Row(0x060180, 3, 1)
    ensures RowAt(0x22) == Row(0x060180, 3, 1)
    ensures RowAt(0x23) == Row(0x060180, 3, 1)
    ensures RowAt(0x24) == Row(0x060180, 3, 1)
    ensures RowAt(0x25) == Row(0x060180, 3, 1)
    ensures RowAt(0x26) == Row(0x060180, 3, 1)
    ensures RowAt(0x27) == Row(0x060180, 3, 1)
    ensures RowAt(0x28) == Row(0x060180, 3, 1)
    ensures RowAt(0x29) == Row(0x800000, 3, 1)
    ensures RowAt(0x2A) == Row(0x800000, 3, 1)
    ensures RowAt(0x2B) == Row(0x800000, 3, 1)
    ensures RowAt(0x2C) == Row(0x800000, 3, 1)
    ensures RowAt(0x2D) == Row(0x800000, 3, 1)
    ensures RowAt(0x2E) == Row(0x800000, 3, 1)
    ensures RowAt(0x2F) == Row(0x800000, 3, 1)
    ensures RowAt(0x30) == Row(0x800000, 3, 1)
    ensures RowAt(0x31) == Row(0x500000, 3, 1)
    ensures RowAt(0x32) == Row(0x500000, 3, 1)
    ensures RowAt(0x33) == Row(0x500000, 3, 1)
    ensures RowAt(0x34) == Row(0x500000, 3, 1)
    ensures RowAt(0x35) == Row(0x500000, 3, 1)
    ensures RowAt(0x36) == Row(0x500000, 3, 1)
    ensures RowAt(0x37) == Row(0x500000, 3, 1)
    ensures RowAt(0x38) == Row(0x500000, 3, 1)
  {
  }

  predicate RowWellFormed(row: Row) {
    row.size in {1, 2, 3} &&
    (row.access == ReadWrite || row.access == ReadOnly) &&
    row.initial < Pow256(row.size)
  }

  /** Every row has a size of one to three bytes, one of the two access codes
      and an initial value that fits its size. */
  lemma TableWellFormed()
    ensures forall a :: 0 <= a < RowCount ==> RowWellFormed(RowAt(a))
  {
  }

  /** The read-only rows are exactly STATUS/COMM (0x00), DATA (0x02), ID
      (0x05), ERROR (0x06) and the unnamed 0x08; every other row is read/write. */
  lemma ReadOnlyRows(a: nat)
    requires a < RowCount
    ensures RowAt(a).access == ReadOnly <==> a == 0x00 || a == 0x02 || a == 0x05 || a == 0x06 || a == 0x08
    ensures RowAt(a).access != ReadOnly ==> RowAt(a).access == ReadWrite
  {
  }

  /** `access(r)`: the access code of the row at `r`'s address. */
  function Access(r: RegName): (a: nat)
    ensures a == ReadWrite || a == ReadOnly
  {
    TableWellFormed();
    RowAt(Value(r)).access
  }

  /** `initial(r)`: the value the register holds after a reset. */
  function Initial(r: RegName): (v: nat)
    ensures v < Pow256(Size(r))
  {
    TableWellFormed();
    RowAt(Value(r)).initial
  }

  /** `size(r)`: the width of the register in bytes. */
  function Size(r: RegName): (n: nat)
    ensures 1 <= n <= 3
  {
    TableWellFormed();
    RowAt(Value(r)).size
  }

  /** `AD7124RegNames(member.value)` is the member itself. */
  lemma FromValueOfValue(r: RegName)
    ensures FromValue(Value(r)) == Some(r)
  {
  }

  /** Apart from the STATUS_REG alias, no two members share an address. */
  lemma ValueInjective(r: RegName, q: RegName)
    ensures Value(r) == Value(q) <==> r == q
  {
    FromValueOfValue(r);
    FromValueOfValue(q);
  }

  /** The channel maps sit at 0x09 + n, adding n to CH0_MAP_REG reaches the
      member of that index, and each is a two-byte read/write register that
      defaults to 0x0001, except CH0 which defaults to 0x8001 (enabled). */
  lemma ChannelBlock(n: ChannelIndex)
    ensures Value(ChMap(n)) == 0x09 + n
    ensures FromValue(Value(ChMap(0)) + n) == Some(ChMap(n))
    ensures Size(ChMap(n)) == 2 && Access(ChMap(n)) == ReadWrite
    ensures Initial(ChMap(n)) == if n == 0 then 0x8001 else 0x0001
  {
  }

  /** The configuration registers: 0x19 + n, two bytes, default 0x0860. */
  lemma CfgBlock(n: SetupIndex)
    ensures Value(Cfg(n)) == 0x19 + n
    ensures FromValue(Value(Cfg(0)) + n) == Some(Cfg(n))
    ensures Size(Cfg(n)) == 2 && Access(Cfg(n)) == ReadWrite && Initial(Cfg(n)) == 0x0860
  {
  }

  /** The filter registers: 0x21 + n, three bytes, default 0x060180. */
  lemma FiltBlock(n: SetupIndex)
    ensures Value(Filt(n)) == 0x21 + n
    ensures FromValue(Value(Filt(0)) + n) == Some(Filt(n))
    ensures Size(Filt(n)) == 3 && Access(Filt(n)) == ReadWrite && Initial(Filt(n)) == 0x060180
  {
  }

  /** The offset registers: 0x29 + n, three bytes, default 0x800000. */
  lemma OffsBlock(n: SetupIndex)
    ensures Value(Offs(n)) == 0x29 + n
    ensures FromValue(Value(Offs(0)) + n) == Some(Offs(n))
    ensures Size(Offs(n)) == 3 && Access(Offs(n)) == ReadWrite && Initial(Offs(n)) == 0x800000
  {
  }

  /** The gain registers: 0x31 + n, three bytes, default 0x500000. */
  lemma GainBlock(n: SetupIndex)
    ensures Value(Gain(n)) == 0x31 + n
    ensures FromValue(Value(Gain(0)) + n) == Some(Gain(n))
    ensures Size(Gain(n)) == 3 && Access(Gain(n)) == ReadWrite && Initial(Gain(n)) == 0x500000
  {
  }

  /** The two rows the table's unit test checks. */
  lemma IdAndFilterRows()
    ensures Access(Id) == ReadOnly && Initial(Id) == 0x02 && Size(Id) == 1
    ensures Access(Filt(0)) == ReadWrite && Initial(Filt(0)) == 0x060180 && Size(Filt(0)) == 3
  {
  }

  /** Adding an int to a member gives a plain int, `member.value + offset`; the
      unit test's offsets from FILT0_REG land on these members. */
  lemma OffsetsFromFilter0()
    ensures FromValue(Value(Filt(0)) + 1) == Some(Filt(1))
    ensures FromValue(Value(Filt(0)) - 1) == Some(Cfg(7))
    ensures FromValue(Value(Filt(0)) + 3) == Some(Filt(3))
  {
  }

  /** The four register banks a setup index selects from. */
  datatype SetupBlock = ConfigRegs | FilterRegs | OffsetRegs | GainRegs

  /** Register `n` of a bank. */
  function SetupReg(b: SetupBlock, n: SetupIndex): RegName {
    match b
    case ConfigRegs => Cfg(n)
    case FilterRegs => Filt(n)
    case OffsetRegs => Offs(n)
    case GainRegs => Gain(n)
  }

  /** The first register of a bank: CFG0_REG, FILT0_REG, OFFS0_REG, GAIN0_REG. */
  function BlockBase(b: SetupBlock): RegName {
    SetupReg(b, 0)
  }

  /** Adding the setup index to a bank's first register reaches register `n`
      of that bank, a read/write register holding two bytes for the
      configuration bank and three for the others. */
  lemma SetupRegOfBase(b: SetupBlock, n: SetupIndex)
    ensures FromValue(Value(BlockBase(b)) + n) == Some(SetupReg(b, n))
    ensures Access(SetupReg(b, n)) == ReadWrite
    ensures Size(SetupReg(b, n)) == if b == ConfigRegs then 2 else 3
  {
  }

  // ------------------------------------------- register arguments as written

  /** What the driver may be handed where it expects a register: a member of
      the enum, or the plain int that `member + offset` produces. */
  datatype RegArg = Member(reg: RegName) | PlainInt(n: int)

  /** `member + offset` on an IntEnum yields an int, not a member. */
  function AddOffset(r: RegName, offset: int): (arg: RegArg)
    ensures arg.PlainInt? && arg.n == Value(r) + offset
  {
    PlainInt(Value(r) + offset)
  }

  /** `arg.value`: a member has one, a plain int raises AttributeError. */
  function ValueOf(arg: RegArg): (v: Result<nat>)
    ensures v.Success? <==> arg.Member?
    ensures v.Success? ==> v.value == Value(arg.reg)
    ensures v.Failure? ==> v.error == AttributeError
  {
    match arg
    case Member(r) => Success(Value(r))
    case PlainInt(_) => Failure(AttributeError)
  }
}
