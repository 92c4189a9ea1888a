/**
 The MOVE_SEND probe as two programs that take turns in any order: the parent's choreography and
 the forked child, sharing the kernel and a status pipe. One step is one kernel call with the code
 up to the next one. Timeouts, failed allocations, interrupts and the child's sudden death are
 choices of the environment.
 */
module MoveSend {
  import opened Baseline
  import opened MachKernel
  import opened PipeTransfer
  import opened MoveSendVerdict

  // ---- the status record in the pipe ------------------------------------------------------------------

  const RECORD_WORDS: nat := 30
  const RECORD_SIZE: nat := 4 * RECORD_WORDS

  function Fields(st: ChildStatus): (ws: seq<Word>)
    ensures |ws| == RECORD_WORDS
  {
    [st.version, st.cleanupOk, st.cleanupDelta, st.exitCode,
     st.krBaselineBefore, st.krGetBootstrap, st.krAllocCargo, st.krInsertSend,
     st.krTypeBefore, st.krRefsBefore, st.mrSend, st.krTypeAfter, st.krRefsAfter,
     st.mrReceive, st.krTypeVerified, st.krRefsVerified, st.krDestroyCargo, st.krBaselineAfter,
     st.typeBefore, st.typeAfter, st.typeVerified,
     st.refsBefore, st.refsAfter, st.refsVerified,
     st.headers.sentBits, st.headers.receivedBits, st.headers.remote, st.headers.local, st.verifyId, st.headers.size]
  }

  function OfFields(ws: seq<Word>): ChildStatus
    requires |ws| == RECORD_WORDS
  {
    ChildStatus(ws[0], ws[1], ws[2], ws[3], ws[4], ws[5], ws[6], ws[7], ws[8], ws[9], ws[10], ws[11], ws[12],
                ws[13], ws[14], ws[15], ws[16], ws[17], ws[18], ws[19], ws[20], ws[21], ws[22], ws[23], ws[28],
                Headers(ws[24], ws[25], ws[26], ws[27], ws[29]))
  }

  type RecordBytes = bs: seq<Byte> | |bs| == RECORD_SIZE witness Bytes(Fields(Unreported()))

  /** The record in memory. */
  function Record(st: ChildStatus): RecordBytes {
    Bytes(Fields(st))
  }

  function OfRecord(bs: RecordBytes): ChildStatus {
    OfFields(Words(bs))
  }

  lemma RecordRoundTrip(st: ChildStatus)
    ensures OfRecord(Record(st)) == st
  {
    hide Bytes, Words;
    WordsOfBytes(Fields(st));
  }

  // ---- states -----------------------------------------------------------------------------------------------

  /** Where the child is; `Unborn` before the fork, `Gone` after its end. */
  datatype ChildPc =
    | Unborn | CGetBootstrap | CBaseline | CAllocate | CInsert | CType | CRefs | CSend | CTypeSent | CRefsSent
    | CReceive | CTypeVerified | CRefsVerified | CDestroy | CBaselineAgain | CDrop | CWrite | CClose | CExit | Gone

  function ChildRank(pc: ChildPc): nat {
    match pc
    case Unborn => 0 case CGetBootstrap => 1 case CBaseline => 2 case CAllocate => 3 case CInsert => 4
    case CType => 5 case CRefs => 6 case CSend => 7 case CTypeSent => 8 case CRefsSent => 9
    case CReceive => 10 case CTypeVerified => 11 case CRefsVerified => 12 case CDestroy => 13
    case CBaselineAgain => 14 case CDrop => 15 case CWrite => 16 case CClose => 17 case CExit => 18 case Gone => 19
  }

  datatype ParentPc =
    | PBaseline | PPipe | PGetBootstrap | PAllocate | PInsert | PPublish | PFork | PCloseWrite | PRestore
    | PReceive | PType | PRefs | PVerify | PRead | PCloseRead | PWait | PDeallocate | PDestroy | PDrop
    | PBaselineAgain | Done

  function ParentRank(pc: ParentPc): nat {
    match pc
    case PBaseline => 0 case PPipe => 1 case PGetBootstrap => 2 case PAllocate => 3 case PInsert => 4
    case PPublish => 5 case PFork => 6 case PCloseWrite => 7 case PRestore => 8 case PReceive => 9
    case PType => 10 case PRefs => 11 case PVerify => 12 case PRead => 13 case PCloseRead => 14 case PWait => 15
    case PDeallocate => 16 case PDestroy => 17 case PDrop => 18 case PBaselineAgain => 19 case Done => 20
  }

  /** The child's variables; `sent` counts the bytes of the record written so far. */
  datatype ChildVars = ChildVars(st: ChildStatus, service: Name, cargo: Name, before: Snapshot, after: Snapshot, sent: nat)

  /** The parent's variables; `buffer` is the record being read, of which `got` bytes have come. */
  datatype ParentVars = ParentVars(r: Results, bootstrap: Name, service: Name, buffer: RecordBytes, got: nat)

  /** The status pipe, its bytes in transit and its open ends. */
  datatype StatusPipe = StatusPipe(data: seq<Byte>, capacity: nat, parentReads: bool, parentWrites: bool, childWrites: bool)

  /**
   A state of the whole run. `interrupts` bounds the interruptions still to come; `disturbed` notes
   that a call timed out, failed for want of resources or was interrupted, or that the child died
   before it had written its record.
   */
  datatype State = State(k: Kernel, ppc: ParentPc, p: ParentVars, cpc: ChildPc, c: ChildVars,
                         pipe: StatusPipe, interrupts: nat, disturbed: bool)

  /** What the environment decides in a step: names, listings, byte counts, whether to fail, and a received header. */
  datatype Choice = Choice(name: Name, listing: Snapshot, count: nat, fail: bool, bits: Word, size: Word)

  datatype Move = ParentMoves(choice: Choice) | ChildMoves(choice: Choice) | ChildDies

  function NoSnapshot(): Snapshot {
    Snapshot([], [], false, 0)
  }

  function NoResults(): Results {
    Results(NoSnapshot(), NoSnapshot(), false, false,
            KERN_FAILURE, KERN_FAILURE, KERN_FAILURE, KERN_FAILURE, false, KERN_FAILURE,
            MACH_RCV_INVALID_NAME, 0, MACH_PORT_NULL, KERN_FAILURE, 0, KERN_FAILURE, 0, MACH_SEND_INVALID_DEST,
            Unreported(), false, false, KERN_FAILURE, KERN_FAILURE, KERN_FAILURE)
  }

  ghost predicate Init(s: State) {
    && Ready(s.k)
    && s.ppc == PBaseline && s.cpc == Unborn
    && s.p == ParentVars(NoResults(), MACH_PORT_NULL, MACH_PORT_NULL, Record(Unreported()), 0)
    && s.c == ChildVars(Untried(), MACH_PORT_NULL, MACH_PORT_NULL, NoSnapshot(), NoSnapshot(), 0)
    && s.pipe.data == [] && s.pipe.capacity > 0
    && !s.pipe.parentReads && !s.pipe.parentWrites && !s.pipe.childWrites
    && !s.disturbed
  }

  // ---- the child ------------------------------------------------------------------------------------------

  /** MACH_MSGH_BITS(MACH_MSG_TYPE_COPY_SEND, 0) with MACH_MSGH_BITS_COMPLEX. */
  const DESCRIPTOR_BITS: Word := 0x8000_0013

  /** The received bits with their two dispositions, and the received size. */
  function HeadersOf(h: Headers, ch: Choice): Headers {
    h.(receivedBits := ch.bits, remote := ch.bits % 0x20, local := ch.bits / 0x100 % 0x20, size := ch.size)
  }

  function ToChild(s: State, pc: ChildPc, k: Kernel, c: ChildVars): Option<State> {
    Some(s.(cpc := pc, k := k, c := c))
  }

  function Report(s: State, pc: ChildPc, st: ChildStatus): Option<State> {
    ToChild(s, pc, s.k, s.c.(st := st))
  }

  ghost function ChildArrive(s: State, ch: Choice): Option<State> {
    var k, c, st := s.k, s.c, s.c.st;
    match s.cpc
    case CGetBootstrap =>
      if !BootstrapName(k, Child, ch.name) then None
      else ToChild(s, CBaseline, GetBootstrap(k, Child, ch.name), c.(service := ch.name, st := st.(krGetBootstrap := KERN_SUCCESS)))
    case CBaseline =>
      if !Lists(k, Child, ch.listing) then None
      else ToChild(s, CAllocate, k, c.(before := ch.listing, st := st.(krBaselineBefore := ch.listing.kr)))
    case _ => None
  }

  ghost function ChildCreate(s: State, ch: Choice): Option<State> {
    var k, c, st := s.k, s.c, s.c.st;
    match s.cpc
    case CAllocate =>
      if st.krGetBootstrap != KERN_SUCCESS then ToChild(s, CInsert, k, c)
      else if ch.fail then
        Some(s.(cpc := CInsert, c := c.(st := st.(krAllocCargo := KERN_NO_SPACE)), disturbed := true))
      else if !FreeName(k.child, ch.name) then None
      else ToChild(s, CInsert, Allocate(k, Child, ch.name), c.(cargo := ch.name, st := st.(krAllocCargo := KERN_SUCCESS)))
    case CInsert =>
      if st.krAllocCargo != KERN_SUCCESS then ToChild(s, CType, k, c)
      else
        var a := MakeSend(k.child, c.cargo);
        ToChild(s, CType, k.(child := a.space), c.(st := st.(krInsertSend := a.kr)))
    case _ => None
  }

  ghost function ChildInspect(s: State, ch: Choice): Option<State> {
    var k, c, st := s.k, s.c, s.c.st;
    match s.cpc
    case CType =>
      if st.krInsertSend != KERN_SUCCESS then ToChild(s, CRefs, k, c)
      else
        var t := Type(k.child, c.cargo);
        Report(s, CRefs, st.(krTypeBefore := t.kr, typeBefore := t.value))
    case CRefs =>
      if st.krInsertSend != KERN_SUCCESS then ToChild(s, CSend, k, c)
      else
        var n := SendRefs(k.child, c.cargo);
        Report(s, CSend, st.(krRefsBefore := n.kr, refsBefore := n.value))
    case _ => None
  }

  ghost function ChildSend(s: State, ch: Choice): Option<State> {
    var k, c, st := s.k, s.c, s.c.st;
    if st.krTypeBefore != KERN_SUCCESS || st.krRefsBefore != KERN_SUCCESS then ToChild(s, CTypeSent, k, c)
    else
      var a := Send(k, Child, c.service, CopySend, DESCRIPTOR_ID, MoveSend(c.cargo));
      ToChild(s, CTypeSent, a.k, c.(st := st.(mrSend := a.kr, headers := st.headers.(sentBits := DESCRIPTOR_BITS))))
  }

  ghost function ChildInspectSent(s: State, ch: Choice): Option<State> {
    var k, c, st := s.k, s.c, s.c.st;
    match s.cpc
    case CTypeSent =>
      if st.mrSend != MACH_MSG_SUCCESS then ToChild(s, CRefsSent, k, c)
      else
        var t := Type(k.child, c.cargo);
        Report(s, CRefsSent, st.(krTypeAfter := t.kr, typeAfter := t.value))
    case CRefsSent =>
      if st.mrSend != MACH_MSG_SUCCESS then ToChild(s, CReceive, k, c)
      else
        var n := SendRefs(k.child, c.cargo);
        Report(s, CReceive, st.(krRefsAfter := n.kr, refsAfter := n.value))
    case _ => None
  }

  ghost function ChildReceive(s: State, ch: Choice): Option<State> {
    var k, c, st := s.k, s.c, s.c.st;
    if st.mrSend != MACH_MSG_SUCCESS then ToChild(s, CTypeVerified, k, c)
    else (
      match Awaits(k, Child, c.cargo)
      case None => Report(s, CTypeVerified, st.(mrReceive := MACH_RCV_INVALID_NAME))
      case Some(port) =>
        if k.queues[port] != [] then
          if !DeliveryName(k, Child, k.queues[port][0].cargo, ch.name) then None
          else
            var d := Receive(k, Child, port, ch.name);
            ToChild(s, CTypeVerified, d.k, c.(st := st.(mrReceive := MACH_MSG_SUCCESS, verifyId := d.message.id, headers := HeadersOf(st.headers, ch))))
        else if ch.fail then
          Some(s.(cpc := CTypeVerified, c := c.(st := st.(mrReceive := MACH_RCV_TIMED_OUT)), disturbed := true))
        else None
    )
  }

  ghost function ChildInspectVerified(s: State, ch: Choice): Option<State> {
    var k, c, st := s.k, s.c, s.c.st;
    match s.cpc
    case CTypeVerified =>
      if st.mrSend != MACH_MSG_SUCCESS then ToChild(s, CRefsVerified, k, c)
      else
        var t := Type(k.child, c.cargo);
        Report(s, CRefsVerified, st.(krTypeVerified := t.kr, typeVerified := t.value))
    case CRefsVerified =>
      if st.mrSend != MACH_MSG_SUCCESS then ToChild(s, CDestroy, k, c)
      else
        var n := SendRefs(k.child, c.cargo);
        Report(s, CDestroy, st.(krRefsVerified := n.kr, refsVerified := n.value))
    case _ => None
  }

  ghost function ChildCleanup(s: State, ch: Choice): Option<State> {
    var k, c, st := s.k, s.c, s.c.st;
    match s.cpc
    case CDestroy =>
      if st.krAllocCargo != KERN_SUCCESS then ToChild(s, CBaselineAgain, k, c)
      else
        var a := Destroy(k, Child, c.cargo);
        ToChild(s, CBaselineAgain, a.k, c.(st := st.(krDestroyCargo := a.kr)))
    case CBaselineAgain =>
      if !Lists(k, Child, ch.listing) then None
      else
        var clean := Matches(c.before, ch.listing);
        var delta := if c.before.valid && ch.listing.valid then ToInt(|ch.listing.names| - |c.before.names|) else 0;
        ToChild(s, CDrop, k, c.(after := ch.listing,
                                st := st.(krBaselineAfter := ch.listing.kr, cleanupOk := if clean then 1 else 0,
                                          cleanupDelta := delta % 0x1_0000_0000)))
    case CDrop =>
      var exited := c.(st := st.(exitCode := ExitCode(st, c.before, c.after)));
      if st.krGetBootstrap == KERN_SUCCESS && c.service != MACH_PORT_NULL then
        ToChild(s, CWrite, k.(child := Deallocate(k.child, c.service).space), exited)
      else ToChild(s, CWrite, k, exited)
    case _ => None
  }

  ghost function ChildWrite(s: State, ch: Choice): Option<State> {
    var k, c, st := s.k, s.c, s.c.st;
    if c.sent >= RECORD_SIZE then ToChild(s, CClose, k, c)
    else if !s.pipe.parentReads then Some(s.(cpc := CClose, disturbed := true))
    else if ch.fail then
      if s.interrupts > 0 then Some(s.(interrupts := s.interrupts - 1)) else None
    else if 1 <= ch.count <= RECORD_SIZE - c.sent && |s.pipe.data| + ch.count <= s.pipe.capacity then
      Some(s.(c := c.(sent := c.sent + ch.count),
              pipe := s.pipe.(data := s.pipe.data + Record(st)[c.sent..c.sent + ch.count])))
    else None
  }

  ghost function ChildLeave(s: State, ch: Choice): Option<State> {
    var k, c := s.k, s.c;
    match s.cpc
    case CClose => Some(s.(cpc := CExit, pipe := s.pipe.(childWrites := false)))
    case CExit => ToChild(s, Gone, Exit(k, Child), c)
    case _ => None
  }

  ghost function ChildNext(s: State, ch: Choice): Option<State> {
    match s.cpc
    case CGetBootstrap | CBaseline => ChildArrive(s, ch)
    case CAllocate | CInsert => ChildCreate(s, ch)
    case CType | CRefs => ChildInspect(s, ch)
    case CSend => ChildSend(s, ch)
    case CTypeSent | CRefsSent => ChildInspectSent(s, ch)
    case CReceive => ChildReceive(s, ch)
    case CTypeVerified | CRefsVerified => ChildInspectVerified(s, ch)
    case CDestroy | CBaselineAgain | CDrop => ChildCleanup(s, ch)
    case CWrite => ChildWrite(s, ch)
    case CClose | CExit => ChildLeave(s, ch)
    case Unborn | Gone => None
  }

  /** The child may be killed at any point of its life. */
  function ChildKilled(s: State): Option<State> {
    if s.cpc == Unborn || s.cpc == Gone then None
    else Some(s.(cpc := Gone, k := Exit(s.k, Child), pipe := s.pipe.(childWrites := false),
                 disturbed := s.disturbed || s.c.sent < RECORD_SIZE))
  }

  // ---- the parent ---------------------------------------------------------------------------------------

  function ToParent(s: State, pc: ParentPc, k: Kernel, p: ParentVars): Option<State> {
    Some(s.(ppc := pc, k := k, p := p))
  }

  function Learn(s: State, pc: ParentPc, r: Results): Option<State> {
    ToParent(s, pc, s.k, s.p.(r := r))
  }

  ghost function ParentOpen(s: State, ch: Choice): Option<State> {
    var k, p, r := s.k, s.p, s.p.r;
    match s.ppc
    case PBaseline =>
      if !Lists(k, Parent, ch.listing) then None else Learn(s, PPipe, r.(before := ch.listing))
    case PPipe =>
      if ch.fail then Some(s.(ppc := PGetBootstrap, disturbed := true))
      else Some(s.(ppc := PGetBootstrap, p := p.(r := r.(pipeCreated := true)),
                   pipe := s.pipe.(parentReads := true, parentWrites := true)))
    case _ => None
  }

  ghost function ParentCreate(s: State, ch: Choice): Option<State> {
    var k, p, r := s.k, s.p, s.p.r;
    match s.ppc
    case PGetBootstrap =>
      if !BootstrapName(k, Parent, ch.name) then None
      else ToParent(s, PAllocate, GetBootstrap(k, Parent, ch.name), p.(bootstrap := ch.name, r := r.(krGetBootstrap := KERN_SUCCESS)))
    case PAllocate =>
      if r.krGetBootstrap != KERN_SUCCESS then ToParent(s, PInsert, k, p)
      else if ch.fail then
        Some(s.(ppc := PInsert, p := p.(r := r.(krAllocService := KERN_NO_SPACE)), disturbed := true))
      else if !FreeName(k.parent, ch.name) then None
      else ToParent(s, PInsert, Allocate(k, Parent, ch.name), p.(service := ch.name, r := r.(krAllocService := KERN_SUCCESS)))
    case PInsert =>
      if r.krAllocService != KERN_SUCCESS then ToParent(s, PPublish, k, p)
      else
        var a := MakeSend(k.parent, p.service);
        ToParent(s, PPublish, k.(parent := a.space), p.(r := r.(krInsertService := a.kr)))
    case _ => None
  }

  ghost function ParentFork(s: State, ch: Choice): Option<State> {
    var k, p, r := s.k, s.p, s.p.r;
    match s.ppc
    case PPublish =>
      if r.krInsertService != KERN_SUCCESS then ToParent(s, PFork, k, p)
      else
        var a := SetBootstrap(k, Parent, p.service);
        ToParent(s, PFork, a.k, p.(r := r.(krPublish := a.kr)))
    case PFork =>
      if r.krPublish != KERN_SUCCESS || !r.pipeCreated then ToParent(s, PCloseWrite, k, p)
      else if ch.fail then Some(s.(ppc := PCloseWrite, disturbed := true))
      else Some(s.(ppc := PCloseWrite, cpc := CGetBootstrap, k := k.(childBootstrap := k.parentBootstrap),
                   p := p.(r := r.(forked := true)), pipe := s.pipe.(childWrites := true)))
    case _ => None
  }

  ghost function ParentRestore(s: State, ch: Choice): Option<State> {
    var k, p, r := s.k, s.p, s.p.r;
    match s.ppc
    case PCloseWrite =>
      if r.krPublish != KERN_SUCCESS || !r.pipeCreated then ToParent(s, PRestore, k, p)
      else Some(s.(ppc := PRestore, pipe := s.pipe.(parentWrites := false)))
    case PRestore =>
      if r.krPublish != KERN_SUCCESS then ToParent(s, PReceive, k, p)
      else
        var a := SetBootstrap(k, Parent, p.bootstrap);
        ToParent(s, PReceive, a.k, p.(r := r.(krRestore := a.kr)))
    case _ => None
  }

  ghost function ParentReceive(s: State, ch: Choice): Option<State> {
    var k, p, r := s.k, s.p, s.p.r;
    if !r.forked then ToParent(s, PType, k, p)
    else (
      match Awaits(k, Parent, p.service)
      case None => Learn(s, PType, r.(mrReceive := MACH_RCV_INVALID_NAME))
      case Some(port) =>
        if k.queues[port] != [] then
          if !DeliveryName(k, Parent, k.queues[port][0].cargo, ch.name) then None
          else
            var d := Receive(k, Parent, port, ch.name);
            ToParent(s, PType, d.k, p.(r := r.(mrReceive := MACH_MSG_SUCCESS, delivered := d.name,
                                               descriptors := DescriptorCount(d.message))))
        else if ch.fail then
          Some(s.(ppc := PType, p := p.(r := r.(mrReceive := MACH_RCV_TIMED_OUT)), disturbed := true))
        else None
    )
  }

  ghost function ParentInspect(s: State, ch: Choice): Option<State> {
    var k, p, r := s.k, s.p, s.p.r;
    match s.ppc
    case PType =>
      if r.mrReceive != MACH_MSG_SUCCESS then ToParent(s, PRefs, k, p)
      else
        var t := Type(k.parent, r.delivered);
        Learn(s, PRefs, r.(krType := t.kr, typeOf := t.value))
    case PRefs =>
      if r.mrReceive != MACH_MSG_SUCCESS then ToParent(s, PVerify, k, p)
      else
        var n := SendRefs(k.parent, r.delivered);
        Learn(s, PVerify, r.(krRefs := n.kr, refs := n.value))
    case _ => None
  }

  ghost function ParentVerify(s: State, ch: Choice): Option<State> {
    var k, p, r := s.k, s.p, s.p.r;
    if r.mrReceive != MACH_MSG_SUCCESS || r.krRefs != KERN_SUCCESS || r.refs == 0 then ToParent(s, PRead, k, p)
    else
      var a := Send(k, Parent, r.delivered, CopySend, VERIFY_ID, NoDescriptor);
      ToParent(s, PRead, a.k, p.(r := r.(mrVerify := a.kr)))
  }

  ghost function ParentRead(s: State, ch: Choice): Option<State> {
    var p, r := s.p, s.p.r;
    if !r.forked then ToParent(s, PCloseRead, s.k, p)
    else if p.got >= RECORD_SIZE then Learn(s, PCloseRead, r.(statusRead := true, child := OfRecord(p.buffer)))
    else if ch.fail then
      if s.interrupts > 0 then Some(s.(interrupts := s.interrupts - 1)) else None
    else if s.pipe.data != [] then
      if 1 <= ch.count <= |s.pipe.data| && p.got + ch.count <= RECORD_SIZE then
        Some(s.(p := p.(buffer := Stored(p.buffer, p.got, s.pipe.data[..ch.count]), got := p.got + ch.count),
                pipe := s.pipe.(data := s.pipe.data[ch.count..])))
      else None
    else if !s.pipe.parentWrites && !s.pipe.childWrites then
      Learn(s, PCloseRead, r.(statusRead := false, child := OfRecord(p.buffer)))
    else None
  }

  ghost function ParentWait(s: State, ch: Choice): Option<State> {
    var k, p, r := s.k, s.p, s.p.r;
    match s.ppc
    case PCloseRead =>
      if !r.forked then ToParent(s, PWait, k, p)
      else Some(s.(ppc := PWait, pipe := s.pipe.(parentReads := false)))
    case PWait =>
      if !r.forked then ToParent(s, PDeallocate, k, p)
      else if ch.fail then Some(s.(ppc := PDeallocate, disturbed := true))
      else if s.cpc == Gone then Learn(s, PDeallocate, r.(waited := true))
      else None
    case _ => None
  }

  ghost function ParentReclaim(s: State, ch: Choice): Option<State> {
    var k, p, r := s.k, s.p, s.p.r;
    match s.ppc
    case PDeallocate =>
      if r.delivered == MACH_PORT_NULL then ToParent(s, PDestroy, k, p)
      else
        var a := Deallocate(k.parent, r.delivered);
        ToParent(s, PDestroy, k.(parent := a.space), p.(r := r.(krDeallocate := a.kr)))
    case PDestroy =>
      if r.krAllocService != KERN_SUCCESS then ToParent(s, PDrop, k, p)
      else
        var a := Destroy(k, Parent, p.service);
        ToParent(s, PDrop, a.k, p.(r := r.(krDestroy := a.kr)))
    case _ => None
  }

  ghost function ParentCleanup(s: State, ch: Choice): Option<State> {
    var k, p, r := s.k, s.p, s.p.r;
    match s.ppc
    case PDrop =>
      if p.bootstrap == MACH_PORT_NULL then ToParent(s, PBaselineAgain, k, p)
      else
        var a := Deallocate(k.parent, p.bootstrap);
        ToParent(s, PBaselineAgain, k.(parent := a.space), p.(r := r.(krDrop := a.kr)))
    case PBaselineAgain =>
      if !Lists(k, Parent, ch.listing) then None
      else Learn(s, Done, r.(after := ch.listing, cleanupOk := Matches(r.before, ch.listing)))
    case _ => None
  }

  ghost function ParentNext(s: State, ch: Choice): Option<State> {
    match s.ppc
    case PBaseline | PPipe => ParentOpen(s, ch)
    case PGetBootstrap | PAllocate | PInsert => ParentCreate(s, ch)
    case PPublish | PFork => ParentFork(s, ch)
    case PCloseWrite | PRestore => ParentRestore(s, ch)
    case PReceive => ParentReceive(s, ch)
    case PType | PRefs => ParentInspect(s, ch)
    case PVerify => ParentVerify(s, ch)
    case PRead => ParentRead(s, ch)
    case PCloseRead | PWait => ParentWait(s, ch)
    case PDeallocate | PDestroy => ParentReclaim(s, ch)
    case PDrop | PBaselineAgain => ParentCleanup(s, ch)
    case Done => None
  }

  /** One step, unless the move is not possible now. */
  ghost function Next(s: State, m: Move): Option<State> {
    match m
    case ParentMoves(ch) => ParentNext(s, ch)
    case ChildMoves(ch) => ChildNext(s, ch)
    case ChildDies => ChildKilled(s)
  }

  /** The parent is done, and the child is gone if there ever was one. */
  predicate Finished(s: State) {
    s.ppc == Done && (s.cpc == Unborn || s.cpc == Gone)
  }

  ghost predicate Steps(s: State, t: State) {
    exists m :: Next(s, m) == Some(t)
  }

  /** The parent takes its next step by itself: no call fails, except that a timed receive may time out. */
  ghost predicate ParentGoes(s: State, t: State) {
    exists ch: Choice :: (ch.fail ==> s.ppc == PReceive) && ParentNext(s, ch) == Some(t)
  }

  ghost predicate ChildGoes(s: State, t: State) {
    exists ch: Choice :: (ch.fail ==> s.cpc == CReceive) && ChildNext(s, ch) == Some(t)
  }

  ghost predicate ParentCanGo(s: State) {
    exists t :: ParentGoes(s, t)
  }

  ghost predicate ChildCanGo(s: State) {
    exists t :: ChildGoes(s, t)
  }

  /** The states of a run: each follows from the one before by some move. */
  ghost predicate Run(run: seq<State>) {
    run != [] && Init(run[0]) && forall i | 0 < i < |run| :: Steps(run[i - 1], run[i])
  }

  function Last(run: seq<State>): State
    requires run != []
  {
    run[|run| - 1]
  }
}
