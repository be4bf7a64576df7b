/** The state of the out-of-order engine: reservation stations, tagged links, queues and
    the create vector.

    The register update unit (RUU) and the load/store queue (LSQ) are two circular buffers
    of the same station type.  A station is named here by one slot number: slots
    0..R-1 are the RUU, slots R..R+L-1 the LSQ.  Lists of links are sequences; a link
    carries the number of the pool record it occupies. */
module RuuTypes {

  /** The register name that means "no register". */
  const NA: Reg := 0
  /** All architected registers plus the temporaries (PISA target). */
  const MD_TOTAL_REGS: nat := 70
  /** The reserved name that carries an effective address to its memory operation. */
  const DTMP: Reg := 67
  /** A register name. */
  type Reg = n: nat | n < MD_TOTAL_REGS witness 0
  /** Room for stores whose address is known and whose value is not. */
  const MAX_STD_UNKNOWNS: nat := 64

  /** The per-operand arrays of a station: two outputs, three inputs. */
  datatype Duo<T> = Duo(a: T, b: T) {
    function Get(o: nat): T { if o == 0 then a else b }
    function Set(o: nat, v: T): Duo<T> { if o == 0 then Duo(v, b) else Duo(a, v) }
  }

  datatype Tri<T> = Tri(a: T, b: T, c: T) {
    function Get(k: nat): T { if k == 0 then a else if k == 1 then b else c }
    function Set(k: nat, v: T): Tri<T> {
      if k == 0 then Tri(v, b, c) else if k == 1 then Tri(a, v, c) else Tri(a, b, v)
    }
  }

  /** What a station's operation is, as far as the engine looks at it. */
  datatype Kind = Alu | Load | Store

  /** A create-vector entry: the register file, or output `odep` of station `slot`. */
  datatype Creator = RegFile | By(slot: nat, odep: nat)

  /** A link to a station instance.  `tag` is the slot's tag when the link was made;
      `x` is the union member in use (operand number, event time or sequence number).
      `inst` is a history field: the sequence number of the instance it was made for. */
  datatype Link = Link(id: nat, rs: nat, tag: nat, x: nat, inst: nat)

  /** `inames`, `waitOn` and `partner` are history fields: the input register names, the
      creator each operand was linked to, and the other half of a split load or store. */
  datatype Station = Station(
    kind: Kind,
    atHead: bool,            // long latency or control: queued at the head of the ready list
    usesUnit: bool,          // needs a functional unit
    inLsq: bool,
    eaComp: bool,
    recoverInst: bool,
    specMode: bool,
    addr: nat,
    tag: nat,
    num: nat,                // sequence number
    queued: bool,
    issued: bool,
    completed: bool,
    onames: Duo<Reg>,
    odeps: Duo<seq<Link>>,
    ready: Tri<bool>,
    inames: Tri<Reg>,
    waitOn: Tri<Creator>,
    partner: nat)
  {
    predicate AllReady() { ready.a && ready.b && ready.c }
  }

  datatype Core = Core(
    R: nat, L: nat,
    st: seq<Station>,
    rh: nat, rn: nat,        // RUU head and number of entries
    lh: nat, ln: nat,        // LSQ head and number of entries
    free: seq<nat>,          // link records on the free list
    events: seq<Link>,
    readyq: seq<Link>,
    cv: seq<Creator>,
    scv: seq<Creator>,
    useSpec: set<Reg>,
    specMode: bool,
    instSeq: nat,
    cycle: nat)

  /** Ways the engine stops: each `panic` and `fatal` of the modelled stages, decoding aside. */
  datatype Fault =
    | OutOfLinks | StdUnknownOverflow
    | AlreadyQueued | EventCompleted | EventInPast
    | OutOfSyncAtCommit | RetiredHasOdeps
    | EmptyRuu | HeadTailBroken | OutOfSyncAtSquash
    | BadCompletion | MispredictedMemOp | NotSpeculative
    | AlreadySatisfied | BadIssue | StoreCreatesResult | MispredictedStore
    | DrainedAndSpeculative
    | RuuSmallerThanLsq
    | UnitInUse

  /** The two stops that depend on the configuration: the links can run out, and an LSQ of `L`
      entries larger than the table of unknown stores can fill that table. */
  predicate IsCapacityFault(f: Fault, L: nat) {
    f == OutOfLinks || (f == StdUnknownOverflow && L > MAX_STD_UNKNOWNS)
  }

  datatype Outcome = Ok(core: Core) | Stop(fault: Fault) {
    predicate IsFailure() { Stop? }
    function PropagateFailure(): Outcome requires Stop? { this }
    function Extract(): Core requires Ok? { core }
  }

  // ----- slots -----

  /** Distance of ring index `i` from the head. */
  function Pos(head: nat, size: nat, i: nat): int {
    if head <= i then i - head else i - head + size
  }

  /** The ring index at distance `p` from the head. */
  function At(head: nat, size: nat, p: nat): int {
    if head + p < size then head + p else head + p - size
  }

  function Next(i: nat, size: nat): nat {
    if i + 1 == size then 0 else i + 1
  }

  predicate Live(c: Core, x: nat) {
    if x < c.R then Pos(c.rh, c.R, x) < c.rn
    else x < c.R + c.L && Pos(c.lh, c.L, x - c.R) < c.ln
  }

  predicate Valid(c: Core, l: Link) {
    l.rs < |c.st| && l.tag == c.st[l.rs].tag
  }

  predicate InRange(c: Core, v: Creator) {
    v.By? ==> v.slot < |c.st| && v.odep < 2
  }

  ghost predicate Shape(c: Core) {
    && c.R > 0 && c.L > 0 && |c.st| == c.R + c.L
    && c.rh < c.R && c.rn <= c.R && c.lh < c.L && c.ln <= c.L
    && |c.cv| == MD_TOTAL_REGS && |c.scv| == MD_TOTAL_REGS
    && (forall n :: 0 <= n < MD_TOTAL_REGS ==> InRange(c, c.cv[n]) && InRange(c, c.scv[n]))
  }

  /** Two states of one configuration. */
  predicate SameSize(c: Core, d: Core) {
    c.R == d.R && c.L == d.L && |c.st| == |d.st|
  }

  /** Station `x` replaced. */
  function With(c: Core, x: nat, s: Station): Core
    requires x < |c.st|
  {
    c.(st := c.st[x := s])
  }
}
