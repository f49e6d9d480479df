// The bit layouts of the registers the driver packs, as the datasheet
// defines them: each record of fields has a word that holds it, and the word
// gives the fields back.
module Layouts {
  import opened Bits

  // ------------------------------------------------------------ ChannelMap

  /** Channel register: bit 15 enable, bits 14:12 setup, bits 9:5 positive input,
      bits 4:0 negative input; bits 11:10 are zero. */
  datatype ChannelMap = ChannelMap(
    enable: bool, setup: nat, ainp: nat, ainm: nat)

  predicate ValidChannelMap(c: ChannelMap) {
    c.setup < 0x8 && c.ainp < 0x20 && c.ainm < 0x20
  }

  /** Fields placed side by side at their offsets come back out of the word. */
  lemma ChannelPack(x0: nat, x1: nat, x3: nat, x4: nat, w: nat)
    requires x0 < 0x2 && x1 < 0x8 && x3 < 0x20 && x4 < 0x20
    requires w == x0 * 0x8000 + x1 * 0x1000 + x3 * 0x20 + x4
    ensures w < 0x1_0000
    ensures (w / 0x8000) % 0x2 == x0
    ensures (w / 0x1000) % 0x8 == x1
    ensures (w / 0x400) % 0x4 == 0
    ensures (w / 0x20) % 0x20 == x3
    ensures w % 0x20 == x4
  {
    assert (w / 0x8000) % 0x2 == x0 by { Field(w, 0, x0, x1 * 0x1000 + x3 * 0x20 + x4, 0x8000, 0x2); }
    assert (w / 0x1000) % 0x8 == x1 by { Field(w, x0, x1, x3 * 0x20 + x4, 0x1000, 0x8); }
    assert (w / 0x400) % 0x4 == 0 by { Field(w, x0 * 0x8 + x1, 0, x3 * 0x20 + x4, 0x400, 0x4); }
    assert (w / 0x20) % 0x20 == x3 by { Field(w, x0 * 0x20 + x1 * 0x4, x3, x4, 0x20, 0x20); }
    assert w % 0x20 == x4 by { Field(w, x0 * 0x400 + x1 * 0x80 + x3, x4, 0, 0x1, 0x20); }
  }

  /** A word below 2^16 is the sum of its fields at their offsets. */
  lemma ChannelUnpack(w: nat)
    requires w < 0x1_0000
    ensures w == ((w / 0x8000) % 0x2) * 0x8000 + ((w / 0x1000) % 0x8) * 0x1000 + ((w / 0x400) % 0x4) * 0x400 + ((w / 0x20) % 0x20) * 0x20 + w % 0x20
  {
    assert w % 0x1_0000 == w;
    assert w % 0x1_0000 == ((w / 0x8000) % 0x2) * 0x8000 + w % 0x8000 by { ModSplit(w, 0x8000, 0x2); }
    assert w % 0x8000 == ((w / 0x1000) % 0x8) * 0x1000 + w % 0x1000 by { ModSplit(w, 0x1000, 0x8); }
    assert w % 0x1000 == ((w / 0x400) % 0x4) * 0x400 + w % 0x400 by { ModSplit(w, 0x400, 0x4); }
    assert w % 0x400 == ((w / 0x20) % 0x20) * 0x20 + w % 0x20 by { ModSplit(w, 0x20, 0x20); }
  }

  function ChannelWord(c: ChannelMap): (w: nat)
    requires ValidChannelMap(c)
    ensures w < 0x1_0000 && (w / 0x400) % 0x4 == 0
  {
    var w := Flag(c.enable) * 0x8000 + c.setup * 0x1000 + c.ainp * 0x20 + c.ainm;
    ChannelPack(Flag(c.enable), c.setup, c.ainp, c.ainm, w);
    w
  }

  /** The word of a record gives the record back. */
  lemma ChannelFieldsOfWord(c: ChannelMap)
    requires ValidChannelMap(c)
    ensures ChannelFields(ChannelWord(c)) == c
  {
    var w := ChannelWord(c);
    ChannelPack(Flag(c.enable), c.setup, c.ainp, c.ainm, w);
    BitOfFlag(w, 0x8000, c.enable);
  }

  function ChannelFields(w: nat): ChannelMap {
    ChannelMap(BitSet(w, 0x8000), (w / 0x1000) % 0x8, (w / 0x20) % 0x20, w % 0x20)
  }

  /** Every word below 2^16 whose reserved bits are clear is the word of its fields. */
  lemma ChannelWordOfFields(w: nat)
    requires w < 0x1_0000 && (w / 0x400) % 0x4 == 0
    ensures ValidChannelMap(ChannelFields(w)) && ChannelWord(ChannelFields(w)) == w
  {
    ChannelUnpack(w);
    FlagOfBitSet(w, 0x8000);
  }

  // ------------------------------------------------------------ SetupConfig

  /** Configuration register: bit 11 bipolar, bits 10:9 burnout, bit 8 ref_buf_p,
      bit 7 ref_buf_m, bit 6 ain_buf_p, bit 5 ain_buf_m, bits 4:3 ref_sel,
      bits 2:0 pga; bits 15:12 are zero. */
  datatype SetupConfig = SetupConfig(
    bipolar: bool, burnout: nat, refBufP: bool, refBufM: bool, ainBufP: bool, ainBufM: bool, refSel: nat, pga: nat)

  predicate ValidSetupConfig(c: SetupConfig) {
    c.burnout < 0x4 && c.refSel < 0x4 && c.pga < 0x8
  }

  /** Fields placed side by side at their offsets come back out of the word. */
  lemma ConfigPack(x0: nat, x1: nat, x2: nat, x3: nat, x4: nat, x5: nat, x6: nat, x7: nat, w: nat)
    requires x0 < 0x2 && x1 < 0x4 && x2 < 0x2 && x3 < 0x2 && x4 < 0x2 && x5 < 0x2 && x6 < 0x4 && x7 < 0x8
    requires w == x0 * 0x800 + x1 * 0x200 + x2 * 0x100 + x3 * 0x80 + x4 * 0x40 + x5 * 0x20 + x6 * 0x8 + x7
    ensures w < 0x1000
    ensures (w / 0x800) % 0x2 == x0
    ensures (w / 0x200) % 0x4 == x1
    ensures (w / 0x100) % 0x2 == x2
    ensures (w / 0x80) % 0x2 == x3
    ensures (w / 0x40) % 0x2 == x4
    ensures (w / 0x20) % 0x2 == x5
    ensures (w / 0x8) % 0x4 == x6
    ensures w % 0x8 == x7
  {
    assert (w / 0x800) % 0x2 == x0 by { Field(w, 0, x0, x1 * 0x200 + x2 * 0x100 + x3 * 0x80 + x4 * 0x40 + x5 * 0x20 + x6 * 0x8 + x7, 0x800, 0x2); }
    assert (w / 0x200) % 0x4 == x1 by { Field(w, x0, x1, x2 * 0x100 + x3 * 0x80 + x4 * 0x40 + x5 * 0x20 + x6 * 0x8 + x7, 0x200, 0x4); }
    assert (w / 0x100) % 0x2 == x2 by { Field(w, x0 * 0x4 + x1, x2, x3 * 0x80 + x4 * 0x40 + x5 * 0x20 + x6 * 0x8 + x7, 0x100, 0x2); }
    assert (w / 0x80) % 0x2 == x3 by { Field(w, x0 * 0x8 + x1 * 0x2 + x2, x3, x4 * 0x40 + x5 * 0x20 + x6 * 0x8 + x7, 0x80, 0x2); }
    assert (w / 0x40) % 0x2 == x4 by { Field(w, x0 * 0x10 + x1 * 0x4 + x2 * 0x2 + x3, x4, x5 * 0x20 + x6 * 0x8 + x7, 0x40, 0x2); }
    assert (w / 0x20) % 0x2 == x5 by { Field(w, x0 * 0x20 + x1 * 0x8 + x2 * 0x4 + x3 * 0x2 + x4, x5, x6 * 0x8 + x7, 0x20, 0x2); }
    assert (w / 0x8) % 0x4 == x6 by { Field(w, x0 * 0x40 + x1 * 0x10 + x2 * 0x8 + x3 * 0x4 + x4 * 0x2 + x5, x6, x7, 0x8, 0x4); }
    assert w % 0x8 == x7 by { Field(w, x0 * 0x100 + x1 * 0x40 + x2 * 0x20 + x3 * 0x10 + x4 * 0x8 + x5 * 0x4 + x6, x7, 0, 0x1, 0x8); }
  }

  /** A word below 2^12 is the sum of its fields at their offsets. */
  lemma ConfigUnpack(w: nat)
    requires w < 0x1000
    ensures w == ((w / 0x800) % 0x2) * 0x800 + ((w / 0x200) % 0x4) * 0x200 + ((w / 0x100) % 0x2) * 0x100 + ((w / 0x80) % 0x2) * 0x80 + ((w / 0x40) % 0x2) * 0x40 + ((w / 0x20) % 0x2) * 0x20 + ((w / 0x8) % 0x4) * 0x8 + w % 0x8
  {
    assert w % 0x1000 == w;
    assert w % 0x1000 == ((w / 0x800) % 0x2) * 0x800 + w % 0x800 by { ModSplit(w, 0x800, 0x2); }
    assert w % 0x800 == ((w / 0x200) % 0x4) * 0x200 + w % 0x200 by { ModSplit(w, 0x200, 0x4); }
    assert w % 0x200 == ((w / 0x100) % 0x2) * 0x100 + w % 0x100 by { ModSplit(w, 0x100, 0x2); }
    assert w % 0x100 == ((w / 0x80) % 0x2) * 0x80 + w % 0x80 by { ModSplit(w, 0x80, 0x2); }
    assert w % 0x80 == ((w / 0x40) % 0x2) * 0x40 + w % 0x40 by { ModSplit(w, 0x40, 0x2); }
    assert w % 0x40 == ((w / 0x20) % 0x2) * 0x20 + w % 0x20 by { ModSplit(w, 0x20, 0x2); }
    assert w % 0x20 == ((w / 0x8) % 0x4) * 0x8 + w % 0x8 by { ModSplit(w, 0x8, 0x4); }
  }

  function ConfigWord(c: SetupConfig): (w: nat)
    requires ValidSetupConfig(c)
    ensures w < 0x1000
  {
    var w := Flag(c.bipolar) * 0x800 + c.burnout * 0x200 + Flag(c.refBufP) * 0x100 + Flag(c.refBufM) * 0x80 + Flag(c.ainBufP) * 0x40 + Flag(c.ainBufM) * 0x20 + c.refSel * 0x8 + c.pga;
    w
  }

  /** The word of a record gives the record back. */
  lemma ConfigFieldsOfWord(c: SetupConfig)
    requires ValidSetupConfig(c)
    ensures ConfigFields(ConfigWord(c)) == c
  {
    var w := ConfigWord(c);
    ConfigPack(Flag(c.bipolar), c.burnout, Flag(c.refBufP), Flag(c.refBufM), Flag(c.ainBufP), Flag(c.ainBufM), c.refSel, c.pga, w);
    BitOfFlag(w, 0x800, c.bipolar);
    BitOfFlag(w, 0x100, c.refBufP);
    BitOfFlag(w, 0x80, c.refBufM);
    BitOfFlag(w, 0x40, c.ainBufP);
    BitOfFlag(w, 0x20, c.ainBufM);
  }

  function ConfigFields(w: nat): SetupConfig {
    SetupConfig(BitSet(w, 0x800), (w / 0x200) % 0x4, BitSet(w, 0x100), BitSet(w, 0x80), BitSet(w, 0x40), BitSet(w, 0x20), (w / 0x8) % 0x4, w % 0x8)
  }

  /** Every word below 2^12 is the word of its fields. */
  lemma ConfigWordOfFields(w: nat)
    requires w < 0x1000
    ensures ValidSetupConfig(ConfigFields(w)) && ConfigWord(ConfigFields(w)) == w
  {
    ConfigUnpack(w);
    FlagOfBitSet(w, 0x800);
    FlagOfBitSet(w, 0x100);
    FlagOfBitSet(w, 0x80);
    FlagOfBitSet(w, 0x40);
    FlagOfBitSet(w, 0x20);
  }

  // ------------------------------------------------------------ FilterConfig

  /** Filter register: bits 23:21 filter type, bit 20 rej60, bits 19:17 post
      filter, bit 16 single cycle, bits 10:0 output data rate; bits 15:11 are zero. */
  datatype FilterConfig = FilterConfig(
    filterType: nat, rej60: bool, postFilter: nat, singleCycle: bool, outputDataRate: nat)

  predicate ValidFilterConfig(c: FilterConfig) {
    c.filterType < 0x8 && c.postFilter < 0x8 && c.outputDataRate < 0x800
  }

  /** Fields placed side by side at their offsets come back out of the word. */
  lemma FilterPack(x0: nat, x1: nat, x2: nat, x3: nat, x5: nat, w: nat)
    requires x0 < 0x8 && x1 < 0x2 && x2 < 0x8 && x3 < 0x2 && x5 < 0x800
    requires w == x0 * 0x20_0000 + x1 * 0x10_0000 + x2 * 0x2_0000 + x3 * 0x1_0000 + x5
    ensures w < 0x100_0000
    ensures (w / 0x20_0000) % 0x8 == x0
    ensures (w / 0x10_0000) % 0x2 == x1
    ensures (w / 0x2_0000) % 0x8 == x2
    ensures (w / 0x1_0000) % 0x2 == x3
    ensures (w / 0x800) % 0x20 == 0
    ensures w % 0x800 == x5
  {
    assert (w / 0x20_0000) % 0x8 == x0 by { Field(w, 0, x0, x1 * 0x10_0000 + x2 * 0x2_0000 + x3 * 0x1_0000 + x5, 0x20_0000, 0x8); }
    assert (w / 0x10_0000) % 0x2 == x1 by { Field(w, x0, x1, x2 * 0x2_0000 + x3 * 0x1_0000 + x5, 0x10_0000, 0x2); }
    assert (w / 0x2_0000) % 0x8 == x2 by { Field(w, x0 * 0x2 + x1, x2, x3 * 0x1_0000 + x5, 0x2_0000, 0x8); }
    assert (w / 0x1_0000) % 0x2 == x3 by { Field(w, x0 * 0x10 + x1 * 0x8 + x2, x3, x5, 0x1_0000, 0x2); }
    assert (w / 0x800) % 0x20 == 0 by { Field(w, x0 * 0x20 + x1 * 0x10 + x2 * 0x2 + x3, 0, x5, 0x800, 0x20); }
    assert w % 0x800 == x5 by { Field(w, x0 * 0x400 + x1 * 0x200 + x2 * 0x40 + x3 * 0x20, x5, 0, 0x1, 0x800); }
  }

  /** A word below 2^24 is the sum of its fields at their offsets. */
  lemma FilterUnpack(w: nat)
    requires w < 0x100_0000
    ensures w == ((w / 0x20_0000) % 0x8) * 0x20_0000 + ((w / 0x10_0000) % 0x2) * 0x10_0000 + ((w / 0x2_0000) % 0x8) * 0x2_0000 + ((w / 0x1_0000) % 0x2) * 0x1_0000 + ((w / 0x800) % 0x20) * 0x800 + w % 0x800
  {
    assert w % 0x100_0000 == w;
    assert w % 0x100_0000 == ((w / 0x20_0000) % 0x8) * 0x20_0000 + w % 0x20_0000 by { ModSplit(w, 0x20_0000, 0x8); }
    assert w % 0x20_0000 == ((w / 0x10_0000) % 0x2) * 0x10_0000 + w % 0x10_0000 by { ModSplit(w, 0x10_0000, 0x2); }
    assert w % 0x10_0000 == ((w / 0x2_0000) % 0x8) * 0x2_0000 + w % 0x2_0000 by { ModSplit(w, 0x2_0000, 0x8); }
    assert w % 0x2_0000 == ((w / 0x1_0000) % 0x2) * 0x1_0000 + w % 0x1_0000 by { ModSplit(w, 0x1_0000, 0x2); }
    assert w % 0x1_0000 == ((w / 0x800) % 0x20) * 0x800 + w % 0x800 by { ModSplit(w, 0x800, 0x20); }
  }

  function FilterWord(c: FilterConfig): (w: nat)
    requires ValidFilterConfig(c)
    ensures w < 0x100_0000 && (w / 0x800) % 0x20 == 0
  {
    var w := c.filterType * 0x20_0000 + Flag(c.rej60) * 0x10_0000 + c.postFilter * 0x2_0000 + Flag(c.singleCycle) * 0x1_0000 + c.outputDataRate;
    FilterPack(c.filterType, Flag(c.rej60), c.postFilter, Flag(c.singleCycle), c.outputDataRate, w);
    w
  }

  /** The word of a record gives the record back. */
  lemma FilterFieldsOfWord(c: FilterConfig)
    requires ValidFilterConfig(c)
    ensures FilterFields(FilterWord(c)) == c
  {
    var w := FilterWord(c);
    FilterPack(c.filterType, Flag(c.rej60), c.postFilter, Flag(c.singleCycle), c.outputDataRate, w);
    BitOfFlag(w, 0x10_0000, c.rej60);
    BitOfFlag(w, 0x1_0000, c.singleCycle);
  }

  function FilterFields(w: nat): FilterConfig {
    FilterConfig((w / 0x20_0000) % 0x8, BitSet(w, 0x10_0000), (w / 0x2_0000) % 0x8, BitSet(w, 0x1_0000), w % 0x800)
  }

  /** Every word below 2^24 whose reserved bits are clear is the word of its fields. */
  lemma FilterWordOfFields(w: nat)
    requires w < 0x100_0000 && (w / 0x800) % 0x20 == 0
    ensures ValidFilterConfig(FilterFields(w)) && FilterWord(FilterFields(w)) == w
  {
    FilterUnpack(w);
    FlagOfBitSet(w, 0x10_0000);
    FlagOfBitSet(w, 0x1_0000);
  }

  // ------------------------------------------------------------ AdcControl

  /** ADC control register: bit 12 dout_rdy_del, bit 11 cont_read, bit 10
      data_status, bit 9 not_cs_en, bit 8 ref_en, bits 7:6 power mode, bits 5:2
      mode, bits 1:0 clock select; bits 15:13 are zero. */
  datatype AdcControl = AdcControl(
    doutRdyDel: bool, contRead: bool, dataStatus: bool, notCsEn: bool, refEn: bool, powerMode: nat, mode: nat, clockSelect: nat)

  predicate ValidAdcControl(c: AdcControl) {
    c.powerMode < 0x4 && c.mode < 0x10 && c.clockSelect < 0x4
  }

  /** Fields placed side by side at their offsets come back out of the word. */
  lemma ControlPack(x0: nat, x1: nat, x2: nat, x3: nat, x4: nat, x5: nat, x6: nat, x7: nat, w: nat)
    requires x0 < 0x2 && x1 < 0x2 && x2 < 0x2 && x3 < 0x2 && x4 < 0x2 && x5 < 0x4 && x6 < 0x10 && x7 < 0x4
    requires w == x0 * 0x1000 + x1 * 0x800 + x2 * 0x400 + x3 * 0x200 + x4 * 0x100 + x5 * 0x40 + x6 * 0x4 + x7
    ensures w < 0x2000
    ensures (w / 0x1000) % 0x2 == x0
    ensures (w / 0x800) % 0x2 == x1
    ensures (w / 0x400) % 0x2 == x2
    ensures (w / 0x200) % 0x2 == x3
    ensures (w / 0x100) % 0x2 == x4
    ensures (w / 0x40) % 0x4 == x5
    ensures (w / 0x4) % 0x10 == x6
    ensures w % 0x4 == x7
  {
    assert (w / 0x1000) % 0x2 == x0 by { Field(w, 0, x0, x1 * 0x800 + x2 * 0x400 + x3 * 0x200 + x4 * 0x100 + x5 * 0x40 + x6 * 0x4 + x7, 0x1000, 0x2); }
    assert (w / 0x800) % 0x2 == x1 by { Field(w, x0, x1, x2 * 0x400 + x3 * 0x200 + x4 * 0x100 + x5 * 0x40 + x6 * 0x4 + x7, 0x800, 0x2); }
    assert (w / 0x400) % 0x2 == x2 by { Field(w, x0 * 0x2 + x1, x2, x3 * 0x200 + x4 * 0x100 + x5 * 0x40 + x6 * 0x4 + x7, 0x400, 0x2); }
    assert (w / 0x200) % 0x2 == x3 by { Field(w, x0 * 0x4 + x1 * 0x2 + x2, x3, x4 * 0x100 + x5 * 0x40 + x6 * 0x4 + x7, 0x200, 0x2); }
    assert (w / 0x100) % 0x2 == x4 by { Field(w, x0 * 0x8 + x1 * 0x4 + x2 * 0x2 + x3, x4, x5 * 0x40 + x6 * 0x4 + x7, 0x100, 0x2); }
    assert (w / 0x40) % 0x4 == x5 by { Field(w, x0 * 0x10 + x1 * 0x8 + x2 * 0x4 + x3 * 0x2 + x4, x5, x6 * 0x4 + x7, 0x40, 0x4); }
    assert (w / 0x4) % 0x10 == x6 by { Field(w, x0 * 0x40 + x1 * 0x20 + x2 * 0x10 + x3 * 0x8 + x4 * 0x4 + x5, x6, x7, 0x4, 0x10); }
    assert w % 0x4 == x7 by { Field(w, x0 * 0x400 + x1 * 0x200 + x2 * 0x100 + x3 * 0x80 + x4 * 0x40 + x5 * 0x10 + x6, x7, 0, 0x1, 0x4); }
  }

  /** A word below 2^13 is the sum of its fields at their offsets. */
  lemma ControlUnpack(w: nat)
    requires w < 0x2000
    ensures w == ((w / 0x1000) % 0x2) * 0x1000 + ((w / 0x800) % 0x2) * 0x800 + ((w / 0x400) % 0x2) * 0x400 + ((w / 0x200) % 0x2) * 0x200 + ((w / 0x100) % 0x2) * 0x100 + ((w / 0x40) % 0x4) * 0x40 + ((w / 0x4) % 0x10) * 0x4 + w % 0x4
  {
    assert w % 0x2000 == w;
    assert w % 0x2000 == ((w / 0x1000) % 0x2) * 0x1000 + w % 0x1000 by { ModSplit(w, 0x1000, 0x2); }
    assert w % 0x1000 == ((w / 0x800) % 0x2) * 0x800 + w % 0x800 by { ModSplit(w, 0x800, 0x2); }
    assert w % 0x800 == ((w / 0x400) % 0x2) * 0x400 + w % 0x400 by { ModSplit(w, 0x400, 0x2); }
    assert w % 0x400 == ((w / 0x200) % 0x2) * 0x200 + w % 0x200 by { ModSplit(w, 0x200, 0x2); }
    assert w % 0x200 == ((w / 0x100) % 0x2) * 0x100 + w % 0x100 by { ModSplit(w, 0x100, 0x2); }
    assert w % 0x100 == ((w / 0x40) % 0x4) * 0x40 + w % 0x40 by { ModSplit(w, 0x40, 0x4); }
    assert w % 0x40 == ((w / 0x4) % 0x10) * 0x4 + w % 0x4 by { ModSplit(w, 0x4, 0x10); }
  }

  function ControlWord(c: AdcControl): (w: nat)
    requires ValidAdcControl(c)
    ensures w < 0x2000
  {
    var w := Flag(c.doutRdyDel) * 0x1000 + Flag(c.contRead) * 0x800 + Flag(c.dataStatus) * 0x400 + Flag(c.notCsEn) * 0x200 + Flag(c.refEn) * 0x100 + c.powerMode * 0x40 + c.mode * 0x4 + c.clockSelect;
    w
  }

  /** The word of a record gives the record back. */
  lemma ControlFieldsOfWord(c: AdcControl)
    requires ValidAdcControl(c)
    ensures ControlFields(ControlWord(c)) == c
  {
    var w := ControlWord(c);
    ControlPack(Flag(c.doutRdyDel), Flag(c.contRead), Flag(c.dataStatus), Flag(c.notCsEn), Flag(c.refEn), c.powerMode, c.mode, c.clockSelect, w);
    BitOfFlag(w, 0x1000, c.doutRdyDel);
    BitOfFlag(w, 0x800, c.contRead);
    BitOfFlag(w, 0x400, c.dataStatus);
    BitOfFlag(w, 0x200, c.notCsEn);
    BitOfFlag(w, 0x100, c.refEn);
  }

  function ControlFields(w: nat): AdcControl {
    AdcControl(BitSet(w, 0x1000), BitSet(w, 0x800), BitSet(w, 0x400), BitSet(w, 0x200), BitSet(w, 0x100), (w / 0x40) % 0x4, (w / 0x4) % 0x10, w % 0x4)
  }

  /** Every word below 2^13 is the word of its fields. */
  lemma ControlWordOfFields(w: nat)
    requires w < 0x2000
    ensures ValidAdcControl(ControlFields(w)) && ControlWord(ControlFields(w)) == w
  {
    ControlUnpack(w);
    FlagOfBitSet(w, 0x1000);
    FlagOfBitSet(w, 0x800);
    FlagOfBitSet(w, 0x400);
    FlagOfBitSet(w, 0x200);
    FlagOfBitSet(w, 0x100);
  }
}
