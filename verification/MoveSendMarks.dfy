/**
 What a disturbed run of the MOVE_SEND probe leaves behind, whatever else happens: a mark in the
 results or in the child's record that the verdict cannot miss.
 */
module MoveSendMarks {
  import opened Baseline
  import opened MachKernel
  import opened KernelSizes
  import opened PipeTransfer
  import opened Envelope
  import opened MoveSendVerdict
  import opened MoveSend
  import opened MoveSendProgress

  ghost predicate ParentMark(s: State) {
    var pn, r := ParentRank(s.ppc), s.p.r;
    || (pn > 1 && !r.pipeCreated)
    || (pn > 3 && r.krAllocService != KERN_SUCCESS)
    || (pn > 6 && !r.forked)
    || (pn > 9 && r.mrReceive != MACH_MSG_SUCCESS)
    || (pn > 15 && !r.waited)
  }

  ghost predicate ChildMark(s: State) {
    var cn, st := ChildRank(s.cpc), s.c.st;
    || (cn > 3 && st.krAllocCargo != KERN_SUCCESS)
    || (cn > 10 && st.mrReceive != MACH_MSG_SUCCESS)
    || (cn > 16 && s.c.sent < RECORD_SIZE)
  }

  /** The child only reports success when it allocated its port and received the verification. */
  ghost predicate ExitTells(s: State) {
    && (ChildRank(s.cpc) <= 15 ==> s.c.st.exitCode == 1)
    && (s.c.st.exitCode == 0 ==> s.c.st.krAllocCargo == KERN_SUCCESS && s.c.st.mrReceive == MACH_MSG_SUCCESS)
  }

  ghost predicate Early(s: State) {
    var pn, r := ParentRank(s.ppc), s.p.r;
    (pn <= 1 ==> !r.pipeCreated) && (pn <= 6 ==> !r.forked) && (pn <= 15 ==> !r.waited) && (!r.forked ==> s.cpc == Unborn)
  }

  ghost predicate Marked(s: State) {
    Early(s) && ExitTells(s) && (s.disturbed ==> ParentMark(s) || ChildMark(s))
  }

  ghost predicate StaysMarked(s: State, n: Option<State>) {
    n.Some? ==> Marked(n.value) && (s.disturbed ==> n.value.disturbed)
  }

  lemma InitMarked(s: State)
    requires Init(s)
    ensures Marked(s)
  {
  }

  lemma MarkedArrive(s: State, ch: Choice)
    requires Marked(s) && (s.cpc == CGetBootstrap || s.cpc == CBaseline)
    ensures StaysMarked(s, ChildArrive(s, ch))
  {
    hide GetBootstrap, BootstrapName, Lists;
  }

  lemma MarkedCreate(s: State, ch: Choice)
    requires Marked(s) && (s.cpc == CAllocate || s.cpc == CInsert)
    ensures StaysMarked(s, ChildCreate(s, ch))
  {
    hide Allocate, MakeSend;
  }

  lemma MarkedInspect(s: State, ch: Choice)
    requires Marked(s) && (s.cpc == CType || s.cpc == CRefs)
    ensures StaysMarked(s, ChildInspect(s, ch))
  {
    hide Type, SendRefs;
  }

  lemma MarkedSend(s: State, ch: Choice)
    requires Marked(s) && s.cpc == CSend
    ensures StaysMarked(s, ChildSend(s, ch))
  {
    hide Send;
  }

  lemma MarkedInspectSent(s: State, ch: Choice)
    requires Marked(s) && (s.cpc == CTypeSent || s.cpc == CRefsSent)
    ensures StaysMarked(s, ChildInspectSent(s, ch))
  {
    hide Type, SendRefs;
  }

  lemma MarkedReceive(s: State, ch: Choice)
    requires Marked(s) && s.cpc == CReceive
    ensures StaysMarked(s, ChildReceive(s, ch))
  {
    hide Receive, Awaits, DeliveryName;
    AwaitsQueue(s.k, Child, s.c.cargo);
  }

  lemma MarkedInspectVerified(s: State, ch: Choice)
    requires Marked(s) && (s.cpc == CTypeVerified || s.cpc == CRefsVerified)
    ensures StaysMarked(s, ChildInspectVerified(s, ch))
  {
    hide Type, SendRefs;
  }

  lemma MarkedDestroy(s: State, ch: Choice)
    requires Marked(s) && s.cpc == CDestroy
    ensures StaysMarked(s, ChildCleanup(s, ch))
  {
    hide Destroy, Deallocate, ExitCode, Matches, ToInt, Lists;
  }

  lemma MarkedBaseline(s: State, ch: Choice)
    requires Marked(s) && s.cpc == CBaselineAgain
    ensures StaysMarked(s, ChildCleanup(s, ch))
  {
    hide Destroy, Deallocate, ExitCode, Matches, ToInt, Lists;
  }

  lemma MarkedDrop(s: State, ch: Choice)
    requires Marked(s) && s.cpc == CDrop
    ensures StaysMarked(s, ChildCleanup(s, ch))
  {
    hide Destroy, Deallocate, Matches, ToInt, Lists, BlocksProbe;
  }

  lemma MarkedWrite(s: State, ch: Choice)
    requires Marked(s) && s.cpc == CWrite
    ensures StaysMarked(s, ChildWrite(s, ch))
  {
    hide Record;
  }

  lemma MarkedLeave(s: State, ch: Choice)
    requires Marked(s) && (s.cpc == CClose || s.cpc == CExit)
    ensures StaysMarked(s, ChildLeave(s, ch))
  {
    hide Exit;
  }

  lemma MarkedKilled(s: State)
    requires Marked(s) && Traffic(s)
    ensures StaysMarked(s, ChildKilled(s))
  {
    hide Exit, InTransit;
  }

  lemma MarkedOpen(s: State, ch: Choice)
    requires Marked(s) && (s.ppc == PBaseline || s.ppc == PPipe)
    ensures StaysMarked(s, ParentOpen(s, ch))
  {
    hide Lists;
  }

  lemma MarkedOriginal(s: State, ch: Choice)
    requires Marked(s) && (s.ppc == PGetBootstrap || s.ppc == PInsert)
    ensures StaysMarked(s, ParentCreate(s, ch))
  {
    hide GetBootstrap, Allocate, MakeSend, BootstrapName;
  }

  lemma MarkedService(s: State, ch: Choice)
    requires Marked(s) && s.ppc == PAllocate
    ensures StaysMarked(s, ParentCreate(s, ch))
  {
    hide GetBootstrap, Allocate, MakeSend, BootstrapName;
  }

  lemma MarkedFork(s: State, ch: Choice)
    requires Marked(s) && (s.ppc == PPublish || s.ppc == PFork)
    ensures StaysMarked(s, ParentFork(s, ch))
  {
    hide SetBootstrap;
  }

  lemma MarkedRestore(s: State, ch: Choice)
    requires Marked(s) && (s.ppc == PCloseWrite || s.ppc == PRestore)
    ensures StaysMarked(s, ParentRestore(s, ch))
  {
    hide SetBootstrap;
  }

  lemma MarkedDelivery(s: State, ch: Choice)
    requires Marked(s) && s.ppc == PReceive
    ensures StaysMarked(s, ParentReceive(s, ch))
  {
    hide Receive, Awaits, DeliveryName;
    AwaitsQueue(s.k, Parent, s.p.service);
  }

  lemma MarkedLook(s: State, ch: Choice)
    requires Marked(s) && (s.ppc == PType || s.ppc == PRefs)
    ensures StaysMarked(s, ParentInspect(s, ch))
  {
    hide Type, SendRefs;
  }

  lemma MarkedVerify(s: State, ch: Choice)
    requires Marked(s) && s.ppc == PVerify
    ensures StaysMarked(s, ParentVerify(s, ch))
  {
    hide Send;
  }

  lemma MarkedRead(s: State, ch: Choice)
    requires Marked(s) && s.ppc == PRead
    ensures StaysMarked(s, ParentRead(s, ch))
  {
    hide OfRecord, Stored;
  }

  lemma MarkedWait(s: State, ch: Choice)
    requires Marked(s) && (s.ppc == PCloseRead || s.ppc == PWait)
    ensures StaysMarked(s, ParentWait(s, ch))
  {
    hide Record;
  }

  lemma MarkedReclaim(s: State, ch: Choice)
    requires Marked(s) && (s.ppc == PDeallocate || s.ppc == PDestroy)
    ensures StaysMarked(s, ParentReclaim(s, ch))
  {
    hide Deallocate, Destroy;
  }

  lemma MarkedEnd(s: State, ch: Choice)
    requires Marked(s) && (s.ppc == PDrop || s.ppc == PBaselineAgain)
    ensures StaysMarked(s, ParentCleanup(s, ch))
  {
    hide Deallocate, Matches, Lists;
  }

  lemma MarkedChild(s: State, ch: Choice)
    requires Marked(s)
    ensures StaysMarked(s, ChildNext(s, ch))
  {
    hide Marked, ChildArrive, ChildCreate, ChildInspect, ChildSend, ChildInspectSent, ChildReceive,
         ChildInspectVerified, ChildCleanup, ChildWrite, ChildLeave;
    match s.cpc
    case CGetBootstrap | CBaseline => MarkedArrive(s, ch);
    case CAllocate | CInsert => MarkedCreate(s, ch);
    case CType | CRefs => MarkedInspect(s, ch);
    case CSend => MarkedSend(s, ch);
    case CTypeSent | CRefsSent => MarkedInspectSent(s, ch);
    case CReceive => MarkedReceive(s, ch);
    case CTypeVerified | CRefsVerified => MarkedInspectVerified(s, ch);
    case CDestroy => MarkedDestroy(s, ch);
    case CBaselineAgain => MarkedBaseline(s, ch);
    case CDrop => MarkedDrop(s, ch);
    case CWrite => MarkedWrite(s, ch);
    case CClose | CExit => MarkedLeave(s, ch);
    case Unborn | Gone =>
  }

  lemma MarkedParent(s: State, ch: Choice)
    requires Marked(s)
    ensures StaysMarked(s, ParentNext(s, ch))
  {
    hide Marked, ParentOpen, ParentCreate, ParentFork, ParentRestore, ParentReceive, ParentInspect, ParentVerify,
         ParentRead, ParentWait, ParentReclaim, ParentCleanup;
    match s.ppc
    case PBaseline | PPipe => MarkedOpen(s, ch);
    case PGetBootstrap | PInsert => MarkedOriginal(s, ch);
    case PAllocate => MarkedService(s, ch);
    case PPublish | PFork => MarkedFork(s, ch);
    case PCloseWrite | PRestore => MarkedRestore(s, ch);
    case PReceive => MarkedDelivery(s, ch);
    case PType | PRefs => MarkedLook(s, ch);
    case PVerify => MarkedVerify(s, ch);
    case PRead => MarkedRead(s, ch);
    case PCloseRead | PWait => MarkedWait(s, ch);
    case PDeallocate | PDestroy => MarkedReclaim(s, ch);
    case PDrop | PBaselineAgain => MarkedEnd(s, ch);
    case Done =>
  }

  lemma MarkedStep(s: State, m: Move)
    requires Marked(s) && Traffic(s)
    ensures StaysMarked(s, Next(s, m))
  {
    hide Marked, Traffic, StaysMarked, ParentNext, ChildNext, ChildKilled;
    match m
    case ParentMoves(ch) => MarkedParent(s, ch);
    case ChildMoves(ch) => MarkedChild(s, ch);
    case ChildDies => MarkedKilled(s);
  }

  /** No disturbed run ends with PASS. */
  lemma DisturbedDoesNotPass(s: State)
    requires Marked(s) && Traffic(s) && s.ppc == Done && s.disturbed
    ensures Ladder(s.p.r).status != PASS
  {
    hide InTransit, Ladder;
    if Ladder(s.p.r).status == PASS {
      PassIsContract(s.p.r);
    }
  }
}
