/** The words of the protocol as 32-bit numbers: which bits carry which field. */
module WireFormat {
  import opened Codec

  /** A command word, most significant octet first. */
  function Number(cmd: Octets): bv32 {
    ((cmd[3] as bv32) << 24) | ((cmd[2] as bv32) << 16) | ((cmd[1] as bv32) << 8) | (cmd[0] as bv32)
  }

  /** Type in the top four bits, domain 1 (control) in the next four, and the rest of the word. */
  function Control32(kind: bv32, rest: bv32): bv32 {
    (kind << 28) | (1 << 24) | rest
  }

  function Field(x: bv8, mask: bv32, at: nat): bv32
    requires at < 32
  {
    ((x as bv32) & mask) << at
  }

  lemma PlainFormat()
    ensures Number(Encode(ResetConnReq)) == Control32(0x0, 0)
    ensures Number(Encode(ResetConnResp)) == Control32(0x1, 0)
    ensures Number(Encode(NewTimingConfigReq)) == Control32(0x5, 0)
    ensures Number(Encode(UplinkConfigNtf)) == Control32(0x8, 0)
  {
  }

  /** Layout at bit 8, version at bit 1, state at bit 0. */
  lemma SsiReqFormat(layout: bv8, version: bv8, state: bv8)
    ensures Number(Encode(SsiConfigReq(layout, version, state))) ==
              Control32(0x2, Field(layout, 0x7, 8) | Field(version, 0xf, 1) | Field(state, 0x1, 0))
  {
  }

  /** Layout at bit 8, result at bit 0. */
  lemma SsiRespFormat(layout: bv8, result: bv8)
    ensures Number(Encode(SsiConfigResp(layout, result))) ==
              Control32(0x6, Field(layout, 0x7, 8) | Field(result, 0x3, 0))
  {
  }

  /** Stream at bit 11, connecting indication at 10, codec information at 6 across two octets, cellular information at 4,
      sample rate at 2, data format at 0. */
  lemma SpeechReqFormat(stream: bv8, ind: bv8, codec: bv8, cell: bv8, rate: bv8, format: bv8)
    ensures Number(Encode(SpeechConfigReq(stream, ind, codec, cell, rate, format))) ==
              Control32(0x3, Field(stream, 0x1, 11) | Field(ind, 0x1, 10) | Field(codec, 0xf, 6) |
                             Field(cell, 0x3, 4) | Field(rate, 0x3, 2) | Field(format, 0x3, 0))
  {
  }

  lemma SpeechRespFormat(result: bv8)
    ensures Number(Encode(SpeechConfigResp(result))) == Control32(0x7, result as bv32)
  {
  }

  /** Milliseconds in nine bits at bit 10, microseconds in ten bits at bit 0, both across octets. */
  lemma TimingFormat(msec: bv16, usec: bv16)
    ensures Number(Encode(TimingConfigNtf(msec, usec))) ==
              Control32(0x4, (((msec as bv32) & 0x1ff) << 10) | ((usec as bv32) & 0x3ff))
  {
  }

  lemma RampFormat(reply: bv8, start: bv8, len: bv8)
    ensures Number(Encode(TestRampPing(reply, start, len))) ==
              Control32(0xc, Field(reply, 0xf, 16) | Field(start, 0xff, 8) | Field(len, 0xff, 0))
  {
  }

  /** Frame counter in the top 16 bits, data length at bit 4, sample rate at 2, data type at 0. */
  lemma UlFormat(counter: bv16, length: bv8, rate: bv8, dataType: bv8)
    ensures Number(UlHeader(counter, length, rate, dataType)) ==
              ((counter as bv32) << 16) | Field(length, 0x3, 4) | Field(rate, 0x3, 2) | Field(dataType, 0x3, 0)
  {
  }

  /** The same with the seven speech flags at bit 6, across two octets. The codec sample rate leaves the word at the top
      of its octet, except for its lowest bit. */
  lemma DlFormat(f: DlFrameFields)
    ensures Number(DlHeader(f)) ==
              ((f.counter as bv32) << 16) | Field(f.codecRate, 0x1, 15) | Field(f.spcFlags, 0x7f, 6) |
              Field(f.length, 0x3, 4) | Field(f.rate, 0x3, 2) | Field(f.dataType, 0x3, 0)
  {
  }

  /** Reading takes the codec sample rate from bit 13, as the modem sends it. */
  lemma DlReadFormat(h: Octets)
    ensures var f := DlFields(h);
            && f.counter as bv32 == Number(h) >> 16 && f.codecRate as bv32 == (Number(h) >> 13) & 0x3
            && f.spcFlags as bv32 == (Number(h) >> 6) & 0x7f && f.length as bv32 == (Number(h) >> 4) & 0x3
            && f.rate as bv32 == (Number(h) >> 2) & 0x3 && f.dataType as bv32 == Number(h) & 0x3
  {
  }

  /** The words that the unit tests of the library are written with. */
  lemma TestWords()
    ensures Decode(Word(0x31, 0x00, 0x2a, 0xd5)) == Some(SpeechConfigReq(1, 0, 11, 1, 1, 1))
    ensures Decode(Word(0x41, 0x06, 0xbf, 0xdb)) == Some(TimingConfigNtf(431, 987))
    ensures Decode(Word(0x21, 0x00, 0x02, 0x00)) == Some(SsiConfigReq(2, 0, 0))
    ensures Decode(Word(0x11, 0x00, 0x00, 0x00)) == Some(ResetConnResp)
    ensures Decode(Word(0x01, 0x00, 0x00, 0x00)) == Some(ResetConnReq)
    ensures UlHeaderFields(Word(0xab, 0xcd, 0x00, 0x2a)) == UlFields(0xabcd, 2, 2, 2)
  {
  }
}
