// The `value |=` chains of the driver's register setters, step by step as
// the driver runs them, each proved to build the datasheet word of the
// masked fields.
module Packers {

  import opened Bits
  import opened Layouts

  /** `set_channel`: enable to bit 15, `setup & 0x07` to bits 14:12,
      `ainp & 0x1F` to bits 9:5 and `ainm & 0x1F` to bits 4:0. */
  method PackChannel(enable: bool, setup: int, ainp: int, ainm: int) returns (value: nat)
    ensures value == ChannelWord(ChannelMap(enable, AndMask(setup, 0x07), AndMask(ainp, 0x1F), AndMask(ainm, 0x1F)))
  {
    var e, s, p, m := Flag(enable), AndMask(setup, 0x07), AndMask(ainp, 0x1F), AndMask(ainm, 0x1F);
    Pow2Values();
    value := 0;
    if enable {
      value := OrInto(value, 0x8000, 0, 0x1_0000, 16);
    }
    assert value == e * 0x8000;
    value := OrInto(value, AndMask(setup, 0x07) * 0x1000, e, 0x8000, 15);
    value := OrInto(value, AndMask(ainp, 0x1F) * 0x20, e * 0x20 + s * 4, 0x400, 10);
    value := OrInto(value, AndMask(ainm, 0x1F), e * 0x400 + s * 0x80 + p, 0x20, 5);
  }

  /** `set_setup_config`: the flags to bits 11, 8, 7, 6 and 5, `burnout & 0x03`
      to bits 10:9, `ref_sel & 0x03` to bits 4:3 and `pga & 0x07` to bits 2:0. */
  method PackConfig(bipolar: bool := true, burnout: int := 0, refBufP: bool := false, refBufM: bool := false,
                    ainBufP: bool := true, ainBufM: bool := true, refSel: int := 0, pga: int := 0)
    returns (value: nat)
    ensures value == ConfigWord(SetupConfig(bipolar, AndMask(burnout, 0x03), refBufP, refBufM,
                                            ainBufP, ainBufM, AndMask(refSel, 0x03), AndMask(pga, 0x07)))
  {
    var b, bo, rp, rm := Flag(bipolar), AndMask(burnout, 0x03), Flag(refBufP), Flag(refBufM);
    var ap, am, rs, g := Flag(ainBufP), Flag(ainBufM), AndMask(refSel, 0x03), AndMask(pga, 0x07);
    Pow2Values();
    value := 0;
    if bipolar {
      value := OrInto(value, 0x0800, 0, 0x1000, 12);
    }
    assert value == b * 0x800;
    value := OrInto(value, AndMask(burnout, 0x03) * 0x200, b, 0x800, 11);
    if refBufP {
      value := OrInto(value, 0x0100, b * 4 + bo, 0x200, 9);
    }
    assert value == b * 0x800 + bo * 0x200 + rp * 0x100;
    if refBufM {
      value := OrInto(value, 0x0080, b * 8 + bo * 2 + rp, 0x100, 8);
    }
    assert value == b * 0x800 + bo * 0x200 + rp * 0x100 + rm * 0x80;
    if ainBufP {
      value := OrInto(value, 0x0040, b * 0x10 + bo * 4 + rp * 2 + rm, 0x80, 7);
    }
    assert value == b * 0x800 + bo * 0x200 + rp * 0x100 + rm * 0x80 + ap * 0x40;
    if ainBufM {
      value := OrInto(value, 0x0020, b * 0x20 + bo * 8 + rp * 4 + rm * 2 + ap, 0x40, 6);
    }
    assert value == b * 0x800 + bo * 0x200 + rp * 0x100 + rm * 0x80 + ap * 0x40 + am * 0x20;
    value := OrInto(value, AndMask(refSel, 0x03) * 8, b * 0x40 + bo * 0x10 + rp * 8 + rm * 4 + ap * 2 + am, 0x20, 5);
    value := OrInto(value, AndMask(pga, 0x07), b * 0x100 + bo * 0x40 + rp * 0x20 + rm * 0x10 + ap * 8 + am * 4 + rs, 8, 3);
  }

  /** `set_setup_filter`: `filter_type & 0x07` to bits 23:21, rej60 to bit 20,
      `post_filter & 0x07` to bits 19:17, single_cycle to bit 16 and
      `output_data_rate & 0x7FF` to bits 10:0. */
  method PackFilter(filterType: int := 0, rej60: bool := false, postFilter: int := 6, singleCycle: bool := false,
                    outputDataRate: int := 0x180) returns (value: nat)
    ensures value == FilterWord(FilterConfig(AndMask(filterType, 0x07), rej60, AndMask(postFilter, 0x07),
                                             singleCycle, AndMask(outputDataRate, 0x7FF)))
  {
    var ft, r, pf, sc, odr := AndMask(filterType, 0x07), Flag(rej60), AndMask(postFilter, 0x07),
      Flag(singleCycle), AndMask(outputDataRate, 0x7FF);
    Pow2Values();
    value := 0;
    value := OrInto(value, AndMask(filterType, 0x07) * 0x20_0000, 0, 0x100_0000, 24);
    if rej60 {
      value := OrInto(value, 0x10_0000, ft, 0x20_0000, 21);
    }
    assert value == ft * 0x20_0000 + r * 0x10_0000;
    value := OrInto(value, AndMask(postFilter, 0x07) * 0x2_0000, ft * 2 + r, 0x10_0000, 20);
    if singleCycle {
      value := OrInto(value, 0x01_0000, ft * 0x10 + r * 8 + pf, 0x2_0000, 17);
    }
    assert value == ft * 0x20_0000 + r * 0x10_0000 + pf * 0x2_0000 + sc * 0x1_0000;
    value := OrInto(value, AndMask(outputDataRate, 0x7FF), ft * 0x20 + r * 0x10 + pf * 2 + sc, 0x1_0000, 16);
  }

  /** `set_setup_offset` and `set_setup_gain`: the low 24 bits of the number. */
  method PackWord24(x: int) returns (value: nat)
    ensures value == AndMask(x, 0xFF_FFFF)
    ensures value < 0x100_0000
  {
    value := 0;
    value := Or(value, AndMask(x, 0xFF_FFFF));
  }

  /** `set_adc_control`: the flags to bits 12 to 8, `power_mode & 0x03` to bits
      7:6, `mode & 0x0F` to bits 5:2 and `clock_select & 0x03` to bits 1:0. */
  method PackControl(doutRdyDel: bool := false, contRead: bool := false, dataStatus: bool := false,
                     notCsEn: bool := false, refEn: bool := false, powerMode: int := 0, mode: int := 0,
                     clockSelect: int := 0) returns (value: nat)
    ensures value == ControlWord(AdcControl(doutRdyDel, contRead, dataStatus, notCsEn, refEn,
                                            AndMask(powerMode, 0x03), AndMask(mode, 0x0F), AndMask(clockSelect, 0x03)))
  {
    var d, c, ds, n := Flag(doutRdyDel), Flag(contRead), Flag(dataStatus), Flag(notCsEn);
    var re, pm, md, cs := Flag(refEn), AndMask(powerMode, 0x03), AndMask(mode, 0x0F), AndMask(clockSelect, 0x03);
    Pow2Values();
    value := 0;
    if doutRdyDel {
      value := OrInto(value, 0x1000, 0, 0x2000, 13);
    }
    assert value == d * 0x1000;
    if contRead {
      value := OrInto(value, 0x0800, d, 0x1000, 12);
    }
    assert value == d * 0x1000 + c * 0x800;
    if dataStatus {
      value := OrInto(value, 0x0400, d * 2 + c, 0x800, 11);
    }
    assert value == d * 0x1000 + c * 0x800 + ds * 0x400;
    if notCsEn {
      value := OrInto(value, 0x0200, d * 4 + c * 2 + ds, 0x400, 10);
    }
    assert value == d * 0x1000 + c * 0x800 + ds * 0x400 + n * 0x200;
    if refEn {
      value := OrInto(value, 0x0100, d * 8 + c * 4 + ds * 2 + n, 0x200, 9);
    }
    assert value == d * 0x1000 + c * 0x800 + ds * 0x400 + n * 0x200 + re * 0x100;
    value := OrInto(value, AndMask(powerMode, 0x03) * 0x40, d * 0x10 + c * 8 + ds * 4 + n * 2 + re, 0x100, 8);
    value := OrInto(value, AndMask(mode, 0x0F) * 4, d * 0x40 + c * 0x20 + ds * 0x10 + n * 8 + re * 4 + pm, 0x40, 6);
    value := OrInto(value, AndMask(clockSelect, 0x03), d * 0x400 + c * 0x200 + ds * 0x100 + n * 0x80 + re * 0x40 + pm * 0x10 + md, 4, 2);
  }

  // The default arguments of the setters, as records of (already masked) fields.

  /** `set_setup_config`: bipolar, burnout off, reference buffers off, analog
      input buffers on, ref_sel 0, pga 0. */
  const DefaultConfig: SetupConfig := SetupConfig(true, 0, false, false, true, true, 0, 0)

  /** `set_setup_filter`: filter type 0, rej60 off, post filter 6, single
      cycle off, output data rate 0x180. */
  const DefaultFilter: FilterConfig := FilterConfig(0, false, 6, false, 0x180)

  /** `set_adc_control`: every flag off and power mode, mode and clock 0. */
  const DefaultControl: AdcControl := AdcControl(false, false, false, false, false, 0, 0, 0)

  /** The default words: the configuration default is the table's reset value
      of a CFG register (0x0860), the control default is 0, and the filter
      default (post filter 6) is 0x0C0180, not the table's 0x060180. */
  lemma DefaultWords()
    ensures ValidSetupConfig(DefaultConfig) && ConfigWord(DefaultConfig) == 0x0860
    ensures ValidFilterConfig(DefaultFilter) && FilterWord(DefaultFilter) == 0x0C_0180
    ensures ValidAdcControl(DefaultControl) && ControlWord(DefaultControl) == 0
  {
  }

  /** The words the internal-temperature setup writes: channel 15 enabled on
      setup 7 with both inputs on the temperature sensor (0b10000) is 0xF210,
      the configuration defaults with ref_sel 0b10 (internal reference) are
      0x0870, and the control defaults with not_cs_en, ref_en and full power
      (power_mode 2) are 0x0380. */
  lemma InternalTemperatureWords()
    ensures ChannelWord(ChannelMap(true, AndMask(7, 0x07), AndMask(0x10, 0x1F), AndMask(0x10, 0x1F))) == 0xF210
    ensures ConfigWord(DefaultConfig.(bipolar := true, refSel := AndMask(2, 0x03))) == 0x0870
    ensures ControlWord(DefaultControl.(dataStatus := false, notCsEn := true, refEn := true,
                                        powerMode := AndMask(2, 0x03))) == 0x0380
  {
  }
}
