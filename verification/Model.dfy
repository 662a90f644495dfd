/** The library context as a value: protocol state, buffer state, wakeline and the driver it talks to. */
module Model {
  import opened Codec

  const DL_SLOTS := 3
  const UL_SLOTS := 2
  const PCM_SAMPLE_SIZE := 2
  const MAX_UL_ERRORS_PAUSE := 5
  const EVENT_BUFFER_SIZE := 64

  const ENOENT := 2
  const EIO := 5
  const EBUSY := 16
  const EINVAL := 22
  const EPIPE := 32
  const ENODATA := 61
  const ENOBUFS := 105

  const SSI_CONFIG_RES_SUCCESS: bv8 := 0
  const SAMPLE_LAYOUT_NO_PREF: bv8 := 0
  const SAMPLE_LAYOUT_SWAPPED_LE: bv8 := 1
  const SAMPLE_LAYOUT_INORDER_LE: bv8 := 2
  const SAMPLE_RATE_8KHZ: bv8 := 1
  const SAMPLE_RATE_16KHZ: bv8 := 2
  const DATA_LENGTH_20MS: bv8 := 2
  const DATA_TYPE_VALID: bv8 := 2

  datatype Proto = Invalid | Disconnected | Connected | ActiveDl | ActiveDlul | TestRampPingActive

  datatype Priv =
    | InSync | Timing | ResetBeforeConnect | Connecting | Disconnecting
    | SsiConfigPend | ConfigActPend | ConfigDeactPend

  /** struct cmtspeech_bc_state_s; layout is None where the C field is -1. */
  datatype Backend = Backend(
    serverActive: bool,
    proto: Proto,
    priv: Priv,
    layout: Option<bv8>,
    ioErrors: nat,
    version: bv8)

  datatype Addr = Null | Mmap(offset: int) | SwapBuffer(offset: int)

  /** struct nokiamodem_buffer_desc_s, with its flag bits spelled out. */
  datatype Desc = Desc(
    count: int,
    pcount: int,
    size: int,
    frameFlags: bv8,
    spcFlags: bv8,
    rateInfo: bv8,
    data: Addr,
    payload: Addr,
    index: int,
    locked: bool,
    invalid: bool,
    xrun: bool)

  const ZERO_DESC := Desc(0, 0, 0, 0, 0, 0, Null, Null, 0, false, false, false)

  type DlDescs = s: seq<Desc> | |s| == DL_SLOTS witness [ZERO_DESC, ZERO_DESC, ZERO_DESC]
  type UlDescs = s: seq<Desc> | |s| == UL_SLOTS witness [ZERO_DESC, ZERO_DESC]

  // The next uplink slot to hand out, -1 while no stream is configured.
  type UlCursor = i: int | -1 <= i < UL_SLOTS witness -1

  /** The buffer part of struct cmtspeech_nokiamodem_s, with the driver feature flag. */
  datatype Buffers = Buffers(
    respPend: bool,
    slotSize: nat,
    rate: bv8,
    length: bv8,
    ulErrors: nat,
    rxHw: int,
    rxAppl: int,
    ulSlot: UlCursor,
    dl: DlDescs,
    ul: UlDescs,
    rolling: bool)

  datatype User = CallUser | ResetUser

  /** The wakeline: who holds it, and the level last accepted by the driver. */
  datatype Line = Line(users: set<User>, level: int)

  type DlOffsets = s: seq<int> | |s| == DL_SLOTS witness [0, 0, 0]
  type UlOffsets = s: seq<int> | |s| == UL_SLOTS witness [0, 0]

  // The driver counts frames modulo a positive multiple of the slot count that fits a notification.
  type Boundary = b: int | 0 < b < 0x100_0000 && b % DL_SLOTS == 0 witness 3

  /** struct cs_mmap_config_block, as the driver last wrote it. */
  datatype Block = Block(rxOffsets: DlOffsets, txOffsets: UlOffsets, rxPtr: nat, boundary: Boundary)

  /** One attempt to write a control message and what write() returned. */
  datatype Sent = Sent(msg: Control, res: int)

  /** One attempt to hand an uplink frame to the driver. */
  datatype Frame = Frame(slot: int, header: Octets, accepted: bool)

  datatype EventKind = MessageEvent(msg: Control) | ResetEvent(cmtSentReq: bool)

  datatype Event = Event(kind: EventKind, prev: Proto, state: Proto, layoutChanged: bool)

  datatype State = State(
    bc: Backend,
    bufs: Buffers,
    line: Line,
    block: Block,
    staleRxOffsets: DlOffsets,
    clock: nat,
    log: seq<Sent>,
    events: seq<Event>,
    ulCounter: bv16,
    tx: seq<Frame>)

  /** What the outside answers: field(t) is the outcome of the t-th system call of a run.
      Control messages and uplink frames go through write() as well, each with outcomes of its own. */
  datatype Env = Env(
    write: nat -> int,
    data: nat -> int,
    busy: nat -> bool,
    wake: nat -> int,
    config: nat -> int,
    ifVersion: nat -> int,
    block: nat -> Block)

  /** A state with the return value of the C function that produced it. */
  datatype Ret = Ret(s: State, res: int)

  predicate IsActive(bc: Backend) {
    bc.proto == ActiveDl || bc.proto == ActiveDlul
  }

  predicate SsiEnabled(bc: Backend) {
    bc.proto == Connected || IsActive(bc)
  }

  function Flag(b: bool): nat {
    if b then 1 else 0
  }

  /** How many of the five descriptors the application holds. */
  function Locked(b: Buffers): nat {
    Flag(b.ul[0].locked) + Flag(b.ul[1].locked) + Flag(b.dl[0].locked) + Flag(b.dl[1].locked) + Flag(b.dl[2].locked)
  }

  predicate AllInvalid(b: Buffers) {
    b.ul[0].invalid && b.ul[1].invalid && b.dl[0].invalid && b.dl[1].invalid && b.dl[2].invalid
  }
}
