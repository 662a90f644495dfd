/** The four-octet message codec of cmtspeech_msgs.c, built for little-endian command words. */
module Codec {

  datatype Option<+T> = None | Some(value: T)

  type Octets = s: seq<bv8> | |s| == 4 witness [0, 0, 0, 0]

  // Positions of the octets of a command word, most significant first.
  const BYTE0 := 3
  const BYTE1 := 2
  const BYTE2 := 1
  const BYTE3 := 0

  const RESET_CONN_REQ: bv8 := 0x00
  const RESET_CONN_RESP: bv8 := 0x01
  const SSI_CONFIG_REQ: bv8 := 0x02
  const SPEECH_CONFIG_REQ: bv8 := 0x03
  const TIMING_CONFIG_NTF: bv8 := 0x04
  const NEW_TIMING_CONFIG_REQ: bv8 := 0x05
  const SSI_CONFIG_RESP: bv8 := 0x06
  const SPEECH_CONFIG_RESP: bv8 := 0x07
  const UPLINK_CONFIG_NTF: bv8 := 0x08
  const TEST_RAMP_PING: bv8 := 0x0c

  const DOMAIN_INTERNAL: bv8 := 0x00
  const DOMAIN_CONTROL: bv8 := 0x01

  const CTRL_LEN := 4
  const DATA_HEADER_LEN := 4

  /** A control message, with its fields as wide as the C arguments that carry them. */
  datatype Control =
    | ResetConnReq
    | ResetConnResp
    | SsiConfigReq(layout: bv8, version: bv8, state: bv8)
    | SpeechConfigReq(stream: bv8, connectInd: bv8, codecInfo: bv8, cellularInfo: bv8, rate: bv8, format: bv8)
    | TimingConfigNtf(msec: bv16, usec: bv16)
    | NewTimingConfigReq
    | SsiConfigResp(layout: bv8, result: bv8)
    | SpeechConfigResp(result: bv8)
    | UplinkConfigNtf
    | TestRampPing(replyDomain: bv8, rampStart: bv8, rampLen: bv8)

  function Word(b0: bv8, b1: bv8, b2: bv8, b3: bv8): Octets {
    [b3, b2, b1, b0]
  }

  function MsgType(cmd: Octets): bv8 {
    cmd[BYTE0] >> 4
  }

  function MsgDomain(cmd: Octets): bv8 {
    cmd[BYTE0] & 0xf
  }

  function Low(x: bv16): bv8 {
    (x & 0xff) as bv8
  }

  function Head(kind: bv8): bv8 {
    (kind << 4) | DOMAIN_CONTROL
  }

  function Encode(c: Control): Octets {
    match c
    case ResetConnReq => Word(Head(RESET_CONN_REQ), 0, 0, 0)
    case ResetConnResp => Word(Head(RESET_CONN_RESP), 0, 0, 0)
    case NewTimingConfigReq => Word(Head(NEW_TIMING_CONFIG_REQ), 0, 0, 0)
    case UplinkConfigNtf => Word(Head(UPLINK_CONFIG_NTF), 0, 0, 0)
    case SsiConfigReq(layout, version, state) =>
      Word(Head(SSI_CONFIG_REQ), 0, layout & 0x7, ((version & 0xf) << 1) | (state & 0x1))
    case SsiConfigResp(layout, result) =>
      Word(Head(SSI_CONFIG_RESP), 0, layout & 0x7, result & 0x3)
    case SpeechConfigReq(stream, ind, codec, cell, rate, format) =>
      Word(Head(SPEECH_CONFIG_REQ), 0,
           ((stream & 0x1) << 3) | ((ind & 0x1) << 2) | ((codec & 0xf) >> 2),
           ((codec & 0xf) << 6) | ((cell & 0x3) << 4) | ((rate & 0x3) << 2) | (format & 0x3))
    case SpeechConfigResp(result) => Word(Head(SPEECH_CONFIG_RESP), 0, 0, result)
    case TimingConfigNtf(msec, usec) =>
      Word(Head(TIMING_CONFIG_NTF), Low((msec & 0x1ff) >> 6),
           Low(((msec & 0x1ff) << 2) | ((usec & 0x3ff) >> 8)), Low(usec & 0xff))
    case TestRampPing(reply, start, len) =>
      Word(Head(TEST_RAMP_PING), reply & 0xf, start, len)
  }

  /** The message carried by a word, or None if the library does not know it. */
  function Decode(cmd: Octets): Option<Control> {
    var kind, b1, b2, b3 := MsgType(cmd), cmd[BYTE1], cmd[BYTE2], cmd[BYTE3];
    if MsgDomain(cmd) != DOMAIN_CONTROL then None
    else if kind == RESET_CONN_REQ then Some(ResetConnReq)
    else if kind == RESET_CONN_RESP then Some(ResetConnResp)
    else if kind == SSI_CONFIG_REQ then Some(SsiConfigReq(b2 & 0x7, (b3 >> 1) & 0xf, b3 & 0x1))
    else if kind == SPEECH_CONFIG_REQ then
      Some(SpeechConfigReq((b2 >> 3) & 0x1, (b2 >> 2) & 0x1, ((b2 << 2) | (b3 >> 6)) & 0xf,
                           (b3 >> 4) & 0x3, (b3 >> 2) & 0x3, b3 & 0x3))
    else if kind == TIMING_CONFIG_NTF then
      Some(TimingConfigNtf((((b1 & 0x7) as bv16) << 6) | ((b2 >> 2) as bv16),
                           (((b2 & 0x3) as bv16) << 8) | (b3 as bv16)))
    else if kind == NEW_TIMING_CONFIG_REQ then Some(NewTimingConfigReq)
    else if kind == SSI_CONFIG_RESP then Some(SsiConfigResp(b2 & 0x7, b3 & 0x3))
    else if kind == SPEECH_CONFIG_RESP then Some(SpeechConfigResp(b3 & 0x1))
    else if kind == UPLINK_CONFIG_NTF then Some(UplinkConfigNtf)
    else if kind == TEST_RAMP_PING then Some(TestRampPing(b1 & 0xf, b2, b3))
    else None
  }

  /** What is left of a message once every field is cut to its width on the wire. */
  function Truncated(c: Control): Control {
    match c
    case SsiConfigReq(layout, version, state) => SsiConfigReq(layout & 0x7, version & 0xf, state & 0x1)
    case SsiConfigResp(layout, result) => SsiConfigResp(layout & 0x7, result & 0x3)
    case SpeechConfigReq(stream, ind, codec, cell, rate, format) =>
      SpeechConfigReq(stream & 0x1, ind & 0x1, codec & 0xf, cell & 0x3, rate & 0x3, format & 0x3)
    case SpeechConfigResp(result) => SpeechConfigResp(result & 0x1)
    case TimingConfigNtf(msec, usec) => TimingConfigNtf(msec & 0x1ff, usec & 0x3ff)
    case TestRampPing(reply, start, len) => TestRampPing(reply & 0xf, start, len)
    case _ => c
  }

  /** Every field fits its width on the wire. */
  predicate InRange(c: Control) {
    match c
    case SsiConfigReq(layout, version, state) => layout <= 7 && version <= 15 && state <= 1
    case SsiConfigResp(layout, result) => layout <= 7 && result <= 3
    case SpeechConfigReq(stream, ind, codec, cell, rate, format) =>
      stream <= 1 && ind <= 1 && codec <= 15 && cell <= 3 && rate <= 3 && format <= 3
    case SpeechConfigResp(result) => result <= 1
    case TimingConfigNtf(msec, usec) => msec <= 0x1ff && usec <= 0x3ff
    case TestRampPing(reply, _, _) => reply <= 15
    case _ => true
  }

  lemma TruncatedExact(c: Control)
    ensures Truncated(c) == c <==> InRange(c)
  {
  }

  /** Decoding an encoded message gives back its fields, cut to size; exactly the message if they fit. */
  lemma DecodeEncode(c: Control)
    ensures Decode(Encode(c)) == Some(Truncated(c))
    ensures Decode(Encode(c)) == Some(c) <==> InRange(c)
  {
    TruncatedExact(c);
    hide InRange;
  }

  /** The bits that a decoder of the word's type never looks at are zero. */
  predicate ReservedClear(cmd: Octets) {
    var kind, b1, b2, b3 := MsgType(cmd), cmd[BYTE1], cmd[BYTE2], cmd[BYTE3];
    if kind == TIMING_CONFIG_NTF then b1 & 0xf8 == 0
    else if kind == TEST_RAMP_PING then b1 & 0xf0 == 0
    else if kind == SPEECH_CONFIG_REQ then b1 == 0 && b2 & 0xf0 == 0
    else if kind == SSI_CONFIG_REQ then b1 == 0 && b2 & 0xf8 == 0 && b3 & 0xe0 == 0
    else if kind == SSI_CONFIG_RESP then b1 == 0 && b2 & 0xf8 == 0 && b3 & 0xfc == 0
    else if kind == SPEECH_CONFIG_RESP then b1 == 0 && b2 == 0 && b3 & 0xfe == 0
    else b1 == 0 && b2 == 0 && b3 == 0
  }

  lemma SameWord(a: Octets, b: Octets)
    ensures a == b <==> a[0] == b[0] && a[1] == b[1] && a[2] == b[2] && a[3] == b[3]
  {
  }

  predicate Reencodes(cmd: Octets) {
    Decode(cmd).Some? && (Encode(Decode(cmd).value) == cmd <==> ReservedClear(cmd))
  }

  lemma PlainReencodes(cmd: Octets)
    requires MsgDomain(cmd) == DOMAIN_CONTROL
    requires MsgType(cmd) in {RESET_CONN_REQ, RESET_CONN_RESP, NEW_TIMING_CONFIG_REQ, UPLINK_CONFIG_NTF}
    ensures Reencodes(cmd)
  {
    if Decode(cmd).Some? { SameWord(Encode(Decode(cmd).value), cmd); }
  }

  lemma SsiReencodes(cmd: Octets)
    requires MsgDomain(cmd) == DOMAIN_CONTROL && (MsgType(cmd) == SSI_CONFIG_REQ || MsgType(cmd) == SSI_CONFIG_RESP)
    ensures Reencodes(cmd)
  {
    if Decode(cmd).Some? { SameWord(Encode(Decode(cmd).value), cmd); }
  }

  lemma SpeechReencodes(cmd: Octets)
    requires MsgDomain(cmd) == DOMAIN_CONTROL && MsgType(cmd) == SPEECH_CONFIG_REQ
    ensures Reencodes(cmd)
  {
    if Decode(cmd).Some? { SameWord(Encode(Decode(cmd).value), cmd); }
  }

  lemma SpeechRespReencodes(cmd: Octets)
    requires MsgDomain(cmd) == DOMAIN_CONTROL && MsgType(cmd) == SPEECH_CONFIG_RESP
    ensures Reencodes(cmd)
  {
    if Decode(cmd).Some? { SameWord(Encode(Decode(cmd).value), cmd); }
  }

  lemma TimingReencodes(cmd: Octets)
    requires MsgDomain(cmd) == DOMAIN_CONTROL && MsgType(cmd) == TIMING_CONFIG_NTF
    ensures Reencodes(cmd)
  {
    if Decode(cmd).Some? { SameWord(Encode(Decode(cmd).value), cmd); }
  }

  lemma RampReencodes(cmd: Octets)
    requires MsgDomain(cmd) == DOMAIN_CONTROL && MsgType(cmd) == TEST_RAMP_PING
    ensures Reencodes(cmd)
  {
    if Decode(cmd).Some? { SameWord(Encode(Decode(cmd).value), cmd); }
  }

  /** Encoding a decoded word gives the word back exactly if its reserved bits are zero. */
  lemma EncodeDecode(cmd: Octets)
    requires Decode(cmd).Some?
    ensures Encode(Decode(cmd).value) == cmd <==> ReservedClear(cmd)
  {
    hide Encode, ReservedClear;
    var kind := MsgType(cmd);
    if kind == SSI_CONFIG_REQ || kind == SSI_CONFIG_RESP {
      SsiReencodes(cmd);
    } else if kind == SPEECH_CONFIG_REQ {
      SpeechReencodes(cmd);
    } else if kind == SPEECH_CONFIG_RESP {
      SpeechRespReencodes(cmd);
    } else if kind == TIMING_CONFIG_NTF {
      TimingReencodes(cmd);
    } else if kind == TEST_RAMP_PING {
      RampReencodes(cmd);
    } else {
      PlainReencodes(cmd);
    }
  }

  method PutWord(cmd: array<bv8>, b0: bv8, b1: bv8, b2: bv8, b3: bv8) returns (len: int)
    requires cmd.Length == CTRL_LEN
    modifies cmd
    ensures cmd[..] == Word(b0, b1, b2, b3) && len == CTRL_LEN
  {
    cmd[BYTE0], cmd[BYTE1], cmd[BYTE2], cmd[BYTE3] := b0, b1, b2, b3;
    len := CTRL_LEN;
  }

  /** The control message encoders: each fills a caller's four-octet buffer and returns its length. */
  method EncodeInto(cmd: array<bv8>, c: Control) returns (len: int)
    requires cmd.Length == CTRL_LEN
    modifies cmd
    ensures cmd[..] == Encode(c) && len == CTRL_LEN
  {
    match c {
      case ResetConnReq => len := PutWord(cmd, Head(RESET_CONN_REQ), 0, 0, 0);
      case ResetConnResp => len := PutWord(cmd, Head(RESET_CONN_RESP), 0, 0, 0);
      case NewTimingConfigReq => len := PutWord(cmd, Head(NEW_TIMING_CONFIG_REQ), 0, 0, 0);
      case UplinkConfigNtf => len := PutWord(cmd, Head(UPLINK_CONFIG_NTF), 0, 0, 0);
      case SsiConfigReq(layout, version, state) =>
        len := PutWord(cmd, Head(SSI_CONFIG_REQ), 0, layout & 0x7, ((version & 0xf) << 1) | (state & 0x1));
      case SsiConfigResp(layout, result) =>
        len := PutWord(cmd, Head(SSI_CONFIG_RESP), 0, layout & 0x7, result & 0x3);
      case SpeechConfigReq(stream, ind, codec, cell, rate, format) =>
        var b2 := ((stream & 0x1) << 3) | ((ind & 0x1) << 2) | ((codec & 0xf) >> 2);
        var b3 := ((codec & 0xf) << 6) | ((cell & 0x3) << 4) | ((rate & 0x3) << 2) | (format & 0x3);
        len := PutWord(cmd, Head(SPEECH_CONFIG_REQ), 0, b2, b3);
      case SpeechConfigResp(result) => len := PutWord(cmd, Head(SPEECH_CONFIG_RESP), 0, 0, result);
      case TimingConfigNtf(msec, usec) =>
        var b2 := Low(((msec & 0x1ff) << 2) | ((usec & 0x3ff) >> 8));
        len := PutWord(cmd, Head(TIMING_CONFIG_NTF), Low((msec & 0x1ff) >> 6), b2, Low(usec & 0xff));
      case TestRampPing(reply, start, ramp) =>
        len := PutWord(cmd, Head(TEST_RAMP_PING), reply & 0xf, start, ramp);
    }
  }

  /** TEST_RAMP_PING for any domain, which the encoder does not cut to its four bits. */
  function RampPing(domain: bv8, reply: bv8, start: bv8, len: bv8): Octets {
    Word((TEST_RAMP_PING << 4) | domain, reply & 0xf, start, len)
  }

  /** Its decoder gives back what was encoded exactly if domain and reply domain fit. */
  lemma RampPingInverse(domain: bv8, reply: bv8, start: bv8, len: bv8)
    ensures var w := RampPing(domain, reply, start, len);
            (MsgType(w) == TEST_RAMP_PING && MsgDomain(w) == domain && w[BYTE1] & 0xf == reply
             && w[BYTE2] == start && w[BYTE3] == len) <==> (domain <= 15 && reply <= 15)
    ensures RampPing(DOMAIN_CONTROL, reply, start, len) == Encode(TestRampPing(reply, start, len))
  {
  }

  datatype UlFields = UlFields(counter: bv16, length: bv8, rate: bv8, dataType: bv8)
  datatype DlFrameFields =
    DlFrameFields(counter: bv16, spcFlags: bv8, length: bv8, rate: bv8, codecRate: bv8, dataType: bv8)

  function Counter(h: Octets): bv16 {
    ((h[BYTE0] as bv16) << 8) | (h[BYTE1] as bv16)
  }

  function UlHeader(counter: bv16, length: bv8, rate: bv8, dataType: bv8): Octets {
    Word(Low(counter >> 8), Low(counter), 0, ((length & 0x3) << 4) | ((rate & 0x3) << 2) | (dataType & 0x3))
  }

  function UlHeaderFields(h: Octets): UlFields {
    UlFields(Counter(h), (h[BYTE3] >> 4) & 0x3, (h[BYTE3] >> 2) & 0x3, h[BYTE3] & 0x3)
  }

  /** The version 5 downlink header, with the encoder's own shift of the codec rate. */
  function DlHeader(f: DlFrameFields): Octets {
    Word(Low(f.counter >> 8), Low(f.counter),
         ((f.codecRate & 0x3) << 7) | ((f.spcFlags >> 2) & 0x1f),
         ((f.spcFlags & 0x3) << 6) | ((f.length & 0x3) << 4) | ((f.rate & 0x3) << 2) | (f.dataType & 0x3))
  }

  function DlFields(h: Octets): DlFrameFields {
    DlFrameFields(Counter(h), ((h[BYTE2] & 0x1f) << 2) | ((h[BYTE3] >> 6) & 0x3),
                  (h[BYTE3] >> 4) & 0x3, (h[BYTE3] >> 2) & 0x3, (h[BYTE2] >> 5) & 0x3, h[BYTE3] & 0x3)
  }

  lemma UlHeaderCounter(counter: bv16, length: bv8, rate: bv8, dataType: bv8)
    ensures Counter(UlHeader(counter, length, rate, dataType)) == counter
  {
  }

  /** An uplink header carries its fields, and is determined by them if the reserved octet is zero. */
  lemma UlHeaderInverse(f: UlFields, h: Octets)
    ensures f.length <= 3 && f.rate <= 3 && f.dataType <= 3 <==>
              UlHeaderFields(UlHeader(f.counter, f.length, f.rate, f.dataType)) == f
    ensures var g := UlHeaderFields(h);
            UlHeader(g.counter, g.length, g.rate, g.dataType) == h <==> h[BYTE2] == 0 && h[BYTE3] & 0xc0 == 0
  {
    var g := UlHeaderFields(h);
    SameWord(UlHeader(g.counter, g.length, g.rate, g.dataType), h);
  }

  predicate DlInRange(f: DlFrameFields) {
    f.spcFlags <= 0x7f && f.length <= 3 && f.rate <= 3 && f.dataType <= 3 && f.codecRate <= 3
  }

  /** The encoder shifts the codec rate by 7 and the decoder reads it at 5: it survives exactly when it is 0. */
  lemma DlHeaderCodecRate(f: DlFrameFields)
    requires DlInRange(f)
    ensures DlFields(DlHeader(f)) == f.(codecRate := 0)
    ensures DlFields(DlHeader(f)) == f <==> f.codecRate == 0
  {
  }

  lemma DlHeaderReencodes(h: Octets)
    ensures DlHeader(DlFields(h)) == h <==> h[BYTE2] & 0xe0 == 0
  {
    SameWord(DlHeader(DlFields(h)), h);
  }

  /** The prefilled frame 0xabcd50a9 carries codec rate 16 kHz, which no encoded frame does. */
  lemma DlHeaderVector(f: DlFrameFields)
    ensures DlFields(Word(0xab, 0xcd, 0x50, 0xa9)) == DlFrameFields(0xabcd, 0x42, 2, 2, 2, 1)
    ensures DlHeader(DlFields(Word(0xab, 0xcd, 0x50, 0xa9))) != Word(0xab, 0xcd, 0x50, 0xa9)
    ensures DlFields(DlHeader(f)).codecRate != 2
  {
    DlHeaderReencodes(Word(0xab, 0xcd, 0x50, 0xa9));
  }

  method EncodeUlHeader(buf: array<bv8>, len: int, counter: bv16, length: bv8, rate: bv8, dataType: bv8)
    returns (res: int)
    requires len <= buf.Length
    modifies buf
    ensures len < DATA_HEADER_LEN ==> res == -1 && buf[..] == old(buf[..])
    ensures len >= DATA_HEADER_LEN ==>
              res == DATA_HEADER_LEN && buf[..4] == UlHeader(counter, length, rate, dataType) && buf[4..] == old(buf[4..])
  {
    if len < DATA_HEADER_LEN {
      return -1;
    }
    buf[BYTE0] := Low(counter >> 8);
    buf[BYTE1] := Low(counter);
    buf[BYTE2] := 0;
    buf[BYTE3] := ((length & 0x3) << 4) | ((rate & 0x3) << 2) | (dataType & 0x3);
    return DATA_HEADER_LEN;
  }

  method EncodeDlHeader(buf: array<bv8>, len: int, f: DlFrameFields) returns (res: int)
    requires len <= buf.Length
    modifies buf
    ensures len < DATA_HEADER_LEN ==> res == -1 && buf[..] == old(buf[..])
    ensures len >= DATA_HEADER_LEN ==> res == DATA_HEADER_LEN && buf[..4] == DlHeader(f) && buf[4..] == old(buf[4..])
  {
    if len < DATA_HEADER_LEN {
      return -1;
    }
    buf[BYTE0] := Low(f.counter >> 8);
    buf[BYTE1] := Low(f.counter);
    buf[BYTE2] := ((f.codecRate & 0x3) << 7) | ((f.spcFlags >> 2) & 0x1f);
    buf[BYTE3] := ((f.spcFlags & 0x3) << 6) | ((f.length & 0x3) << 4) | ((f.rate & 0x3) << 2) | (f.dataType & 0x3);
    return DATA_HEADER_LEN;
  }
}
