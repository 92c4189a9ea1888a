/**
 The send-once probe as two programs that take turns in any order. One step is one kernel call.
 The status record crosses the pipe whole; how `write_full` and `read_full` cut it up is the
 subject of the modules `PipeTransfer` and `MoveSend`.
 */
module SendOnceRun {
  import opened Baseline
  import opened MachKernel
  import opened SendOnceVerdict

  datatype ChildPc =
    | Unborn | CGetBootstrap | CBaseline | CAllocate | CCargoType | CExtract | CType | CRefs | CSend | CTypeSent
    | CRefsSent | CReceive | CReceiveAgain | CCargoTypeAfter | CDropOnce | CDestroy | CBaselineAgain | CDrop | CReport
    | CExit | Gone

  function ChildRank(pc: ChildPc): nat {
    match pc
    case Unborn => 0 case CGetBootstrap => 1 case CBaseline => 2 case CAllocate => 3 case CCargoType => 4
    case CExtract => 5 case CType => 6 case CRefs => 7 case CSend => 8 case CTypeSent => 9 case CRefsSent => 10
    case CReceive => 11 case CReceiveAgain => 12 case CCargoTypeAfter => 13 case CDropOnce => 14 case CDestroy => 15
    case CBaselineAgain => 16 case CDrop => 17 case CReport => 18 case CExit => 19 case Gone => 20
  }

  datatype ParentPc =
    | PBaseline | PPipe | PGetBootstrap | PAllocate | PInsert | PPublish | PFork | PRestore | PReceive | PType | PRefs
    | PFirst | PTypeAfter | PRefsAfter | PSecond | PRead | PWait | PDeallocate | PDestroy | PDrop | PBaselineAgain | Done

  function ParentRank(pc: ParentPc): nat {
    match pc
    case PBaseline => 0 case PPipe => 1 case PGetBootstrap => 2 case PAllocate => 3 case PInsert => 4
    case PPublish => 5 case PFork => 6 case PRestore => 7 case PReceive => 8 case PType => 9 case PRefs => 10
    case PFirst => 11 case PTypeAfter => 12 case PRefsAfter => 13 case PSecond => 14 case PRead => 15
    case PWait => 16 case PDeallocate => 17 case PDestroy => 18 case PDrop => 19 case PBaselineAgain => 20 case Done => 21
  }

  datatype ChildVars = ChildVars(st: ChildStatus, service: Name, cargo: Name, once: Name, before: Snapshot, after: Snapshot)

  datatype ParentVars = ParentVars(r: Results, bootstrap: Name, service: Name)

  /** `report` is the record in the pipe. */
  datatype State = State(k: Kernel, ppc: ParentPc, p: ParentVars, cpc: ChildPc, c: ChildVars,
                         report: Option<ChildStatus>, disturbed: bool)

  datatype Choice = Choice(name: Name, listing: Snapshot, fail: bool)

  datatype Move = ParentMoves(choice: Choice) | ChildMoves(choice: Choice) | ChildDies

  function NoSnapshot(): Snapshot {
    Snapshot([], [], false, 0)
  }

  function NoResults(): Results {
    Results(NoSnapshot(), NoSnapshot(), false, false,
            KERN_FAILURE, KERN_FAILURE, KERN_FAILURE, KERN_FAILURE, false, KERN_FAILURE,
            MACH_RCV_INVALID_NAME, 0, MACH_PORT_NULL, KERN_FAILURE, 0, KERN_FAILURE, 0, MACH_SEND_INVALID_DEST,
            KERN_FAILURE, 0, KERN_FAILURE, 0, MACH_SEND_INVALID_DEST,
            Unreported(), false, false, KERN_FAILURE, KERN_FAILURE, KERN_FAILURE)
  }

  ghost predicate Init(s: State) {
    && Ready(s.k)
    && s.ppc == PBaseline && s.cpc == Unborn && s.report == None && !s.disturbed
    && s.p == ParentVars(NoResults(), MACH_PORT_NULL, MACH_PORT_NULL)
    && s.c == ChildVars(Untried(), MACH_PORT_NULL, MACH_PORT_NULL, MACH_PORT_NULL, NoSnapshot(), NoSnapshot())
  }

  // ---- the child ------------------------------------------------------------------------------------------

  function ToChild(s: State, pc: ChildPc, k: Kernel, c: ChildVars): Option<State> {
    Some(s.(cpc := pc, k := k, c := c))
  }

  function Note(s: State, pc: ChildPc, st: ChildStatus): Option<State> {
    ToChild(s, pc, s.k, s.c.(st := st))
  }

  ghost function ChildArrive(s: State, ch: Choice): Option<State> {
    var k, c, st := s.k, s.c, s.c.st;
    match s.cpc
    case CGetBootstrap =>
      if !BootstrapName(k, Child, ch.name) then None
      else ToChild(s, CBaseline, GetBootstrap(k, Child, ch.name), c.(service := ch.name, st := st.(krGetBootstrap := KERN_SUCCESS)))
    case CBaseline =>
      if !Lists(k, Child, ch.listing) then None
      else ToChild(s, CAllocate, k, c.(before := ch.listing, st := st.(krBaselineBefore := ch.listing.kr)))
    case _ => None
  }

  ghost function ChildCreate(s: State, ch: Choice): Option<State> {
    var k, c, st := s.k, s.c, s.c.st;
    match s.cpc
    case CAllocate =>
      if st.krGetBootstrap != KERN_SUCCESS then ToChild(s, CCargoType, k, c)
      else if ch.fail then
        Some(s.(cpc := CCargoType, c := c.(st := st.(krAllocCargo := KERN_NO_SPACE)), disturbed := true))
      else if !FreeName(k.child, ch.name) then None
      else ToChild(s, CCargoType, Allocate(k, Child, ch.name), c.(cargo := ch.name, st := st.(krAllocCargo := KERN_SUCCESS)))
    case CCargoType =>
      if st.krAllocCargo != KERN_SUCCESS then ToChild(s, CExtract, k, c)
      else
        var t := Type(k.child, c.cargo);
        Note(s, CExtract, st.(krCargoType := t.kr, cargoType := t.value))
    case CExtract =>
      if st.krCargoType != KERN_SUCCESS then ToChild(s, CType, k, c)
      else if !FreeName(k.child, ch.name) then None
      else
        var a := ExtractOnce(k.child, c.cargo, ch.name);
        ToChild(s, CType, k.(child := a.space),
                c.(once := if a.kr == KERN_SUCCESS then ch.name else MACH_PORT_NULL, st := st.(krExtract := a.kr)))
    case _ => None
  }

  ghost function ChildInspect(s: State, ch: Choice): Option<State> {
    var k, c, st := s.k, s.c, s.c.st;
    match s.cpc
    case CType =>
      if st.krExtract != KERN_SUCCESS then ToChild(s, CRefs, k, c)
      else
        var t := Type(k.child, c.once);
        Note(s, CRefs, st.(krType := t.kr, typeOf := t.value))
    case CRefs =>
      if st.krExtract != KERN_SUCCESS then ToChild(s, CSend, k, c)
      else
        var n := SendOnceRefs(k.child, c.once);
        Note(s, CSend, st.(krRefs := n.kr, refs := n.value))
    case _ => None
  }

  ghost function ChildSend(s: State, ch: Choice): Option<State> {
    var k, c, st := s.k, s.c, s.c.st;
    if st.krType != KERN_SUCCESS then ToChild(s, CTypeSent, k, c)
    else
      var a := Send(k, Child, c.service, CopySend, DESCRIPTOR_ID, MoveOnce(c.once));
      ToChild(s, CTypeSent, a.k, c.(st := st.(mrSend := a.kr)))
  }

  ghost function ChildInspectSent(s: State, ch: Choice): Option<State> {
    var k, c, st := s.k, s.c, s.c.st;
    match s.cpc
    case CTypeSent =>
      if st.mrSend != MACH_MSG_SUCCESS then ToChild(s, CRefsSent, k, c)
      else
        var t := Type(k.child, c.once);
        Note(s, CRefsSent, st.(krTypeSent := t.kr, typeSent := t.value))
    case CRefsSent =>
      if st.mrSend != MACH_MSG_SUCCESS then ToChild(s, CReceive, k, c)
      else
        var n := SendOnceRefs(k.child, c.once);
        Note(s, CReceive, st.(krRefsSent := n.kr, refsSent := n.value))
    case _ => None
  }

  /** The first receive call; a timeout here is a disturbance. */
  ghost function ChildReceive(s: State, ch: Choice): Option<State> {
    var k, c, st := s.k, s.c, s.c.st;
    if st.mrSend != MACH_MSG_SUCCESS then ToChild(s, CReceiveAgain, k, c)
    else
      match Awaits(k, Child, c.cargo)
      case None => Note(s, CReceiveAgain, st.(mrFirst := MACH_RCV_INVALID_NAME))
      case Some(port) =>
        if k.queues[port] != [] then
          if !DeliveryName(k, Child, k.queues[port][0].cargo, ch.name) then None
          else
            var d := Receive(k, Child, port, ch.name);
            ToChild(s, CReceiveAgain, d.k, c.(st := st.(mrFirst := MACH_MSG_SUCCESS, firstId := d.message.id)))
        else if ch.fail then
          Some(s.(cpc := CReceiveAgain, c := c.(st := st.(mrFirst := MACH_RCV_TIMED_OUT)), disturbed := true))
        else None
  }

  /** The second one is expected to time out. */
  ghost function ChildReceiveAgain(s: State, ch: Choice): Option<State> {
    var k, c, st := s.k, s.c, s.c.st;
    if st.mrSend != MACH_MSG_SUCCESS then ToChild(s, CCargoTypeAfter, k, c)
    else
      match Awaits(k, Child, c.cargo)
      case None => Note(s, CCargoTypeAfter, st.(mrSecond := MACH_RCV_INVALID_NAME))
      case Some(port) =>
        if k.queues[port] != [] then
          if !DeliveryName(k, Child, k.queues[port][0].cargo, ch.name) then None
          else
            var d := Receive(k, Child, port, ch.name);
            ToChild(s, CCargoTypeAfter, d.k, c.(st := st.(mrSecond := MACH_MSG_SUCCESS, secondId := d.message.id)))
        else Note(s, CCargoTypeAfter, st.(mrSecond := MACH_RCV_TIMED_OUT))
  }

  ghost function ChildRelease(s: State, ch: Choice): Option<State> {
    var k, c, st := s.k, s.c, s.c.st;
    match s.cpc
    case CCargoTypeAfter =>
      if st.mrSend != MACH_MSG_SUCCESS then ToChild(s, CDropOnce, k, c)
      else
        var t := Type(k.child, c.cargo);
        Note(s, CDropOnce, st.(krCargoTypeAfter := t.kr, cargoTypeAfter := t.value))
    case CDropOnce =>
      if c.once == MACH_PORT_NULL then ToChild(s, CDestroy, k, c)
      else
        var a := Deallocate(k.child, c.once);
        ToChild(s, CDestroy, k.(child := a.space), c.(st := st.(krDeallocateOnce := a.kr)))
    case CDestroy =>
      if st.krAllocCargo != KERN_SUCCESS then ToChild(s, CBaselineAgain, k, c)
      else
        var a := Destroy(k, Child, c.cargo);
        ToChild(s, CBaselineAgain, a.k, c.(st := st.(krDestroyCargo := a.kr)))
    case _ => None
  }

  ghost function ChildCleanup(s: State, ch: Choice): Option<State> {
    var k, c, st := s.k, s.c, s.c.st;
    match s.cpc
    case CBaselineAgain =>
      if !Lists(k, Child, ch.listing) then None
      else
        var clean := Matches(c.before, ch.listing);
        var delta := if c.before.valid && ch.listing.valid then ToInt(|ch.listing.names| - |c.before.names|) else 0;
        ToChild(s, CDrop, k, c.(after := ch.listing,
                                st := st.(krBaselineAfter := ch.listing.kr, cleanupOk := if clean then 1 else 0,
                                          cleanupDelta := delta % 0x1_0000_0000)))
    case CDrop =>
      var exited := c.(st := st.(exitCode := ExitCode(st, c.before, c.after)));
      if st.krGetBootstrap == KERN_SUCCESS && c.service != MACH_PORT_NULL then
        ToChild(s, CReport, k.(child := Deallocate(k.child, c.service).space), exited)
      else ToChild(s, CReport, k, exited)
    case _ => None
  }

  ghost function ChildLeave(s: State, ch: Choice): Option<State> {
    match s.cpc
    case CReport => Some(s.(cpc := CExit, report := Some(s.c.st)))
    case CExit => ToChild(s, Gone, Exit(s.k, Child), s.c)
    case _ => None
  }

  ghost function ChildNext(s: State, ch: Choice): Option<State> {
    match s.cpc
    case CGetBootstrap | CBaseline => ChildArrive(s, ch)
    case CAllocate | CCargoType | CExtract => ChildCreate(s, ch)
    case CType | CRefs => ChildInspect(s, ch)
    case CSend => ChildSend(s, ch)
    case CTypeSent | CRefsSent => ChildInspectSent(s, ch)
    case CReceive => ChildReceive(s, ch)
    case CReceiveAgain => ChildReceiveAgain(s, ch)
    case CCargoTypeAfter | CDropOnce | CDestroy => ChildRelease(s, ch)
    case CBaselineAgain | CDrop => ChildCleanup(s, ch)
    case CReport | CExit => ChildLeave(s, ch)
    case Unborn | Gone => None
  }

  function ChildKilled(s: State): Option<State> {
    if s.cpc == Unborn || s.cpc == Gone then None
    else Some(s.(cpc := Gone, k := Exit(s.k, Child), disturbed := s.disturbed || s.report == None))
  }

  // ---- the parent ---------------------------------------------------------------------------------------

  function ToParent(s: State, pc: ParentPc, k: Kernel, p: ParentVars): Option<State> {
    Some(s.(ppc := pc, k := k, p := p))
  }

  function Learn(s: State, pc: ParentPc, r: Results): Option<State> {
    ToParent(s, pc, s.k, s.p.(r := r))
  }

  ghost function ParentOpen(s: State, ch: Choice): Option<State> {
    var k, p, r := s.k, s.p, s.p.r;
    match s.ppc
    case PBaseline =>
      if !Lists(k, Parent, ch.listing) then None else Learn(s, PPipe, r.(before := ch.listing))
    case PPipe =>
      if ch.fail then Some(s.(ppc := PGetBootstrap, disturbed := true))
      else Learn(s, PGetBootstrap, r.(pipeCreated := true))
    case _ => None
  }

  ghost function ParentCreate(s: State, ch: Choice): Option<State> {
    var k, p, r := s.k, s.p, s.p.r;
    match s.ppc
    case PGetBootstrap =>
      if !BootstrapName(k, Parent, ch.name) then None
      else ToParent(s, PAllocate, GetBootstrap(k, Parent, ch.name), p.(bootstrap := ch.name, r := r.(krGetBootstrap := KERN_SUCCESS)))
    case PAllocate =>
      if r.krGetBootstrap != KERN_SUCCESS then ToParent(s, PInsert, k, p)
      else if ch.fail then
        Some(s.(ppc := PInsert, p := p.(r := r.(krAllocService := KERN_NO_SPACE)), disturbed := true))
      else if !FreeName(k.parent, ch.name) then None
      else ToParent(s, PInsert, Allocate(k, Parent, ch.name), p.(service := ch.name, r := r.(krAllocService := KERN_SUCCESS)))
    case PInsert =>
      if r.krAllocService != KERN_SUCCESS then ToParent(s, PPublish, k, p)
      else
        var a := MakeSend(k.parent, p.service);
        ToParent(s, PPublish, k.(parent := a.space), p.(r := r.(krInsertService := a.kr)))
    case _ => None
  }

  ghost function ParentFork(s: State, ch: Choice): Option<State> {
    var k, p, r := s.k, s.p, s.p.r;
    match s.ppc
    case PPublish =>
      if r.krInsertService != KERN_SUCCESS then ToParent(s, PFork, k, p)
      else
        var a := SetBootstrap(k, Parent, p.service);
        ToParent(s, PFork, a.k, p.(r := r.(krPublish := a.kr)))
    case PFork =>
      if r.krPublish != KERN_SUCCESS || !r.pipeCreated then ToParent(s, PRestore, k, p)
      else if ch.fail then Some(s.(ppc := PRestore, disturbed := true))
      else Some(s.(ppc := PRestore, cpc := CGetBootstrap, k := k.(childBootstrap := k.parentBootstrap),
                   p := p.(r := r.(forked := true))))
    case PRestore =>
      if r.krPublish != KERN_SUCCESS then ToParent(s, PReceive, k, p)
      else
        var a := SetBootstrap(k, Parent, p.bootstrap);
        ToParent(s, PReceive, a.k, p.(r := r.(krRestore := a.kr)))
    case _ => None
  }

  ghost function ParentReceive(s: State, ch: Choice): Option<State> {
    var k, p, r := s.k, s.p, s.p.r;
    if !r.forked then ToParent(s, PType, k, p)
    else
      match Awaits(k, Parent, p.service)
      case None => Learn(s, PType, r.(mrReceive := MACH_RCV_INVALID_NAME))
      case Some(port) =>
        if k.queues[port] != [] then
          if !DeliveryName(k, Parent, k.queues[port][0].cargo, ch.name) then None
          else
            var d := Receive(k, Parent, port, ch.name);
            ToParent(s, PType, d.k, p.(r := r.(mrReceive := MACH_MSG_SUCCESS, delivered := d.name,
                                               descriptors := DescriptorCount(d.message))))
        else if ch.fail then
          Some(s.(ppc := PType, p := p.(r := r.(mrReceive := MACH_RCV_TIMED_OUT)), disturbed := true))
        else None
  }

  ghost function ParentInspect(s: State, ch: Choice): Option<State> {
    var k, p, r := s.k, s.p, s.p.r;
    match s.ppc
    case PType =>
      if r.mrReceive != MACH_MSG_SUCCESS then ToParent(s, PRefs, k, p)
      else
        var t := Type(k.parent, r.delivered);
        Learn(s, PRefs, r.(krType := t.kr, typeOf := t.value))
    case PRefs =>
      if r.mrReceive != MACH_MSG_SUCCESS then ToParent(s, PFirst, k, p)
      else
        var n := SendOnceRefs(k.parent, r.delivered);
        Learn(s, PFirst, r.(krRefs := n.kr, refs := n.value))
    case _ => None
  }

  /** Whether the parent goes on to use the right. */
  predicate Uses(r: Results) {
    r.mrReceive == MACH_MSG_SUCCESS && r.krType == KERN_SUCCESS && HasSendOnce(r.typeOf)
  }

  ghost function ParentUse(s: State, ch: Choice): Option<State> {
    var k, p, r := s.k, s.p, s.p.r;
    match s.ppc
    case PFirst =>
      if !Uses(r) then ToParent(s, PTypeAfter, k, p)
      else
        var a := Send(k, Parent, r.delivered, MoveSendOnce, VERIFY_ID, NoDescriptor);
        ToParent(s, PTypeAfter, a.k, p.(r := r.(mrFirst := a.kr)))
    case PSecond =>
      if !Uses(r) then ToParent(s, PRead, k, p)
      else
        var a := Send(k, Parent, r.delivered, MoveSendOnce, SECOND_ID, NoDescriptor);
        ToParent(s, PRead, a.k, p.(r := r.(mrSecond := a.kr)))
    case _ => None
  }

  ghost function ParentInspectUsed(s: State, ch: Choice): Option<State> {
    var k, p, r := s.k, s.p, s.p.r;
    match s.ppc
    case PTypeAfter =>
      if !Uses(r) then ToParent(s, PRefsAfter, k, p)
      else
        var t := Type(k.parent, r.delivered);
        Learn(s, PRefsAfter, r.(krTypeAfter := t.kr, typeAfter := t.value))
    case PRefsAfter =>
      if !Uses(r) then ToParent(s, PSecond, k, p)
      else
        var n := SendOnceRefs(k.parent, r.delivered);
        Learn(s, PSecond, r.(krRefsAfter := n.kr, refsAfter := n.value))
    case _ => None
  }

  ghost function ParentWait(s: State, ch: Choice): Option<State> {
    var k, p, r := s.k, s.p, s.p.r;
    match s.ppc
    case PRead =>
      if !r.forked then ToParent(s, PWait, k, p)
      else if s.report.Some? then Learn(s, PWait, r.(statusRead := true, child := s.report.value))
      else if s.cpc == Gone then ToParent(s, PWait, k, p)
      else None
    case PWait =>
      if !r.forked then ToParent(s, PDeallocate, k, p)
      else if ch.fail then Some(s.(ppc := PDeallocate, disturbed := true))
      else if s.cpc == Gone then Learn(s, PDeallocate, r.(waited := true))
      else None
    case _ => None
  }

  ghost function ParentReclaim(s: State, ch: Choice): Option<State> {
    var k, p, r := s.k, s.p, s.p.r;
    match s.ppc
    case PDeallocate =>
      if r.delivered == MACH_PORT_NULL then ToParent(s, PDestroy, k, p)
      else
        var a := Deallocate(k.parent, r.delivered);
        ToParent(s, PDestroy, k.(parent := a.space), p.(r := r.(krDeallocate := a.kr)))
    case PDestroy =>
      if r.krAllocService != KERN_SUCCESS then ToParent(s, PDrop, k, p)
      else
        var a := Destroy(k, Parent, p.service);
        ToParent(s, PDrop, a.k, p.(r := r.(krDestroy := a.kr)))
    case _ => None
  }

  ghost function ParentCleanup(s: State, ch: Choice): Option<State> {
    var k, p, r := s.k, s.p, s.p.r;
    match s.ppc
    case PDrop =>
      if p.bootstrap == MACH_PORT_NULL then ToParent(s, PBaselineAgain, k, p)
      else
        var a := Deallocate(k.parent, p.bootstrap);
        ToParent(s, PBaselineAgain, k.(parent := a.space), p.(r := r.(krDrop := a.kr)))
    case PBaselineAgain =>
      if !Lists(k, Parent, ch.listing) then None
      else Learn(s, Done, r.(after := ch.listing, cleanupOk := Matches(r.before, ch.listing)))
    case _ => None
  }

  ghost function ParentNext(s: State, ch: Choice): Option<State> {
    match s.ppc
    case PBaseline | PPipe => ParentOpen(s, ch)
    case PGetBootstrap | PAllocate | PInsert => ParentCreate(s, ch)
    case PPublish | PFork | PRestore => ParentFork(s, ch)
    case PReceive => ParentReceive(s, ch)
    case PType | PRefs => ParentInspect(s, ch)
    case PFirst | PSecond => ParentUse(s, ch)
    case PTypeAfter | PRefsAfter => ParentInspectUsed(s, ch)
    case PRead | PWait => ParentWait(s, ch)
    case PDeallocate | PDestroy => ParentReclaim(s, ch)
    case PDrop | PBaselineAgain => ParentCleanup(s, ch)
    case Done => None
  }

  ghost function Next(s: State, m: Move): Option<State> {
    match m
    case ParentMoves(ch) => ParentNext(s, ch)
    case ChildMoves(ch) => ChildNext(s, ch)
    case ChildDies => ChildKilled(s)
  }

  ghost predicate Steps(s: State, t: State) {
    exists m :: Next(s, m) == Some(t)
  }

  /** The parent takes its next step by itself: no call fails, except that a timed receive may time out. */
  ghost predicate ParentGoes(s: State, t: State) {
    exists ch: Choice :: (ch.fail ==> s.ppc == PReceive) && ParentNext(s, ch) == Some(t)
  }

  ghost predicate ChildGoes(s: State, t: State) {
    exists ch: Choice :: (ch.fail ==> s.cpc == CReceive) && ChildNext(s, ch) == Some(t)
  }

  ghost predicate ParentCanGo(s: State) {
    exists t :: ParentGoes(s, t)
  }

  ghost predicate ChildCanGo(s: State) {
    exists t :: ChildGoes(s, t)
  }

  /** The parent is done, and the child is gone if there ever was one. */
  predicate Finished(s: State) {
    s.ppc == Done && (s.cpc == Unborn || s.cpc == Gone)
  }

  ghost predicate Run(run: seq<State>) {
    run != [] && Init(run[0]) && forall i | 0 < i < |run| :: Steps(run[i - 1], run[i])
  }

  function Last(run: seq<State>): State
    requires run != []
  {
    run[|run| - 1]
  }
}
