/**
 What a disturbed run of the send-once probe leaves behind, whatever else happens: a mark in the
 results or in the child's record that the verdict cannot miss.
 */
module SendOnceMarks {
  import opened Baseline
  import opened MachKernel
  import opened KernelSizes
  import opened Envelope
  import opened SendOnceVerdict
  import opened SendOnceRun
  import opened SendOnceTransfer

  ghost predicate ParentMark(s: State) {
    var pn, r := ParentRank(s.ppc), s.p.r;
    || (pn > 1 && !r.pipeCreated)
    || (pn > 3 && r.krAllocService != KERN_SUCCESS)
    || (pn > 6 && !r.forked)
    || (pn > 8 && r.mrReceive != MACH_MSG_SUCCESS)
    || (pn > 16 && !r.waited)
  }

  ghost predicate ChildMark(s: State) {
    var cn, st := ChildRank(s.cpc), s.c.st;
    || (cn > 3 && st.krAllocCargo != KERN_SUCCESS)
    || (cn > 11 && st.mrFirst != MACH_MSG_SUCCESS)
    || (cn > 18 && s.report == None)
  }

  /** The child only reports success when it allocated its port and received the verification. */
  ghost predicate ExitTells(s: State) {
    && (ChildRank(s.cpc) <= 17 ==> s.c.st.exitCode == 1)
    && (s.c.st.exitCode == 0 ==> s.c.st.krAllocCargo == KERN_SUCCESS && s.c.st.mrFirst == MACH_MSG_SUCCESS)
  }

  /** What the parent read is the child's record. */
  ghost predicate Reported(s: State) {
    && (s.report.Some? ==> s.report.value == s.c.st && ChildRank(s.cpc) > 18)
    && (s.p.r.statusRead ==> s.report == Some(s.p.r.child))
  }

  ghost predicate Early(s: State) {
    var pn, r := ParentRank(s.ppc), s.p.r;
    (pn <= 1 ==> !r.pipeCreated) && (pn <= 6 ==> !r.forked) && (pn <= 16 ==> !r.waited) && (!r.forked ==> s.cpc == Unborn)
  }

  ghost predicate Marked(s: State) {
    Early(s) && ExitTells(s) && Reported(s) && (s.disturbed ==> ParentMark(s) || ChildMark(s))
  }

  ghost predicate StaysMarked(s: State, n: Option<State>) {
    n.Some? ==> Marked(n.value) && (s.disturbed ==> n.value.disturbed)
  }

  lemma InitMarked(s: State)
    requires Init(s)
    ensures Marked(s)
  {
  }

  lemma MarkedArrive(s: State, ch: Choice)
    requires Marked(s) && (s.cpc == CGetBootstrap || s.cpc == CBaseline)
    ensures StaysMarked(s, ChildArrive(s, ch))
  {
    hide GetBootstrap, BootstrapName, Lists;
  }

  lemma MarkedCreate(s: State, ch: Choice)
    requires Marked(s) && (s.cpc == CAllocate || s.cpc == CCargoType || s.cpc == CExtract)
    ensures StaysMarked(s, ChildCreate(s, ch))
  {
    hide Allocate, Type, ExtractOnce;
  }

  lemma MarkedInspect(s: State, ch: Choice)
    requires Marked(s) && (s.cpc == CType || s.cpc == CRefs)
    ensures StaysMarked(s, ChildInspect(s, ch))
  {
    hide Type, SendOnceRefs;
  }

  lemma MarkedSend(s: State, ch: Choice)
    requires Marked(s) && s.cpc == CSend
    ensures StaysMarked(s, ChildSend(s, ch))
  {
    hide Send;
  }

  lemma MarkedInspectSent(s: State, ch: Choice)
    requires Marked(s) && (s.cpc == CTypeSent || s.cpc == CRefsSent)
    ensures StaysMarked(s, ChildInspectSent(s, ch))
  {
    hide Type, SendOnceRefs;
  }

  lemma MarkedReceive(s: State, ch: Choice)
    requires Marked(s) && s.cpc == CReceive
    ensures StaysMarked(s, ChildReceive(s, ch))
  {
    hide Receive, Awaits, DeliveryName;
    AwaitsQueue(s.k, Child, s.c.cargo);
  }

  lemma MarkedReceiveAgain(s: State, ch: Choice)
    requires Marked(s) && s.cpc == CReceiveAgain
    ensures StaysMarked(s, ChildReceiveAgain(s, ch))
  {
    hide Receive, Awaits, DeliveryName;
    AwaitsQueue(s.k, Child, s.c.cargo);
  }

  lemma MarkedRelease(s: State, ch: Choice)
    requires Marked(s) && (s.cpc == CCargoTypeAfter || s.cpc == CDropOnce || s.cpc == CDestroy)
    ensures StaysMarked(s, ChildRelease(s, ch))
  {
    hide Type, Destroy, Deallocate;
  }

  lemma MarkedBaseline(s: State, ch: Choice)
    requires Marked(s) && s.cpc == CBaselineAgain
    ensures StaysMarked(s, ChildCleanup(s, ch))
  {
    hide Deallocate, ExitCode, Matches, ToInt, Lists;
  }

  lemma MarkedDrop(s: State, ch: Choice)
    requires Marked(s) && s.cpc == CDrop
    ensures StaysMarked(s, ChildCleanup(s, ch))
  {
    hide Deallocate, Matches, ToInt, Lists, BlocksProbe;
  }

  lemma MarkedLeave(s: State, ch: Choice)
    requires Marked(s) && (s.cpc == CReport || s.cpc == CExit)
    ensures StaysMarked(s, ChildLeave(s, ch))
  {
    hide Exit;
  }

  lemma MarkedKilled(s: State)
    requires Marked(s)
    ensures StaysMarked(s, ChildKilled(s))
  {
    hide Exit;
  }

  lemma MarkedOpen(s: State, ch: Choice)
    requires Marked(s) && (s.ppc == PBaseline || s.ppc == PPipe)
    ensures StaysMarked(s, ParentOpen(s, ch))
  {
    hide Lists;
  }

  lemma MarkedOriginal(s: State, ch: Choice)
    requires Marked(s) && (s.ppc == PGetBootstrap || s.ppc == PInsert)
    ensures StaysMarked(s, ParentCreate(s, ch))
  {
    hide GetBootstrap, Allocate, MakeSend, BootstrapName;
  }

  lemma MarkedService(s: State, ch: Choice)
    requires Marked(s) && s.ppc == PAllocate
    ensures StaysMarked(s, ParentCreate(s, ch))
  {
    hide GetBootstrap, Allocate, MakeSend, BootstrapName;
  }

  lemma MarkedFork(s: State, ch: Choice)
    requires Marked(s) && (s.ppc == PPublish || s.ppc == PFork || s.ppc == PRestore)
    ensures StaysMarked(s, ParentFork(s, ch))
  {
    hide SetBootstrap;
  }

  lemma MarkedDelivery(s: State, ch: Choice)
    requires Marked(s) && s.ppc == PReceive
    ensures StaysMarked(s, ParentReceive(s, ch))
  {
    hide Receive, Awaits, DeliveryName;
    AwaitsQueue(s.k, Parent, s.p.service);
  }

  lemma MarkedLook(s: State, ch: Choice)
    requires Marked(s) && (s.ppc == PType || s.ppc == PRefs)
    ensures StaysMarked(s, ParentInspect(s, ch))
  {
    hide Type, SendOnceRefs;
  }

  lemma MarkedUse(s: State, ch: Choice)
    requires Marked(s) && (s.ppc == PFirst || s.ppc == PSecond)
    ensures StaysMarked(s, ParentUse(s, ch))
  {
    hide Send, HasSendOnce;
  }

  lemma MarkedLookUsed(s: State, ch: Choice)
    requires Marked(s) && (s.ppc == PTypeAfter || s.ppc == PRefsAfter)
    ensures StaysMarked(s, ParentInspectUsed(s, ch))
  {
    hide Type, SendOnceRefs, HasSendOnce;
  }

  lemma MarkedWait(s: State, ch: Choice)
    requires Marked(s) && (s.ppc == PRead || s.ppc == PWait)
    ensures StaysMarked(s, ParentWait(s, ch))
  {
    hide HasSendOnce;
  }

  lemma MarkedReclaim(s: State, ch: Choice)
    requires Marked(s) && (s.ppc == PDeallocate || s.ppc == PDestroy)
    ensures StaysMarked(s, ParentReclaim(s, ch))
  {
    hide Deallocate, Destroy;
  }

  lemma MarkedEnd(s: State, ch: Choice)
    requires Marked(s) && (s.ppc == PDrop || s.ppc == PBaselineAgain)
    ensures StaysMarked(s, ParentCleanup(s, ch))
  {
    hide Deallocate, Matches, Lists;
  }

  lemma MarkedChild(s: State, ch: Choice)
    requires Marked(s)
    ensures StaysMarked(s, ChildNext(s, ch))
  {
    hide Marked, ChildArrive, ChildCreate, ChildInspect, ChildSend, ChildInspectSent, ChildReceive,
         ChildReceiveAgain, ChildRelease, ChildCleanup, ChildLeave;
    match s.cpc
    case CGetBootstrap | CBaseline => MarkedArrive(s, ch);
    case CAllocate | CCargoType | CExtract => MarkedCreate(s, ch);
    case CType | CRefs => MarkedInspect(s, ch);
    case CSend => MarkedSend(s, ch);
    case CTypeSent | CRefsSent => MarkedInspectSent(s, ch);
    case CReceive => MarkedReceive(s, ch);
    case CReceiveAgain => MarkedReceiveAgain(s, ch);
    case CCargoTypeAfter | CDropOnce | CDestroy => MarkedRelease(s, ch);
    case CBaselineAgain => MarkedBaseline(s, ch);
    case CDrop => MarkedDrop(s, ch);
    case CReport | CExit => MarkedLeave(s, ch);
    case Unborn | Gone =>
  }

  lemma MarkedParent(s: State, ch: Choice)
    requires Marked(s)
    ensures StaysMarked(s, ParentNext(s, ch))
  {
    hide Marked, ParentOpen, ParentCreate, ParentFork, ParentReceive, ParentInspect, ParentUse, ParentInspectUsed,
         ParentWait, ParentReclaim, ParentCleanup;
    match s.ppc
    case PBaseline | PPipe => MarkedOpen(s, ch);
    case PGetBootstrap | PInsert => MarkedOriginal(s, ch);
    case PAllocate => MarkedService(s, ch);
    case PPublish | PFork | PRestore => MarkedFork(s, ch);
    case PReceive => MarkedDelivery(s, ch);
    case PType | PRefs => MarkedLook(s, ch);
    case PFirst | PSecond => MarkedUse(s, ch);
    case PTypeAfter | PRefsAfter => MarkedLookUsed(s, ch);
    case PRead | PWait => MarkedWait(s, ch);
    case PDeallocate | PDestroy => MarkedReclaim(s, ch);
    case PDrop | PBaselineAgain => MarkedEnd(s, ch);
    case Done =>
  }

  lemma MarkedSteps(s: State, t: State)
    requires Marked(s) && Steps(s, t)
    ensures Marked(t) && (s.disturbed ==> t.disturbed)
  {
    hide Marked, ParentNext, ChildNext, ChildKilled;
    var m :| Next(s, m) == Some(t);
    match m
    case ParentMoves(ch) => MarkedParent(s, ch);
    case ChildMoves(ch) => MarkedChild(s, ch);
    case ChildDies => MarkedKilled(s);
  }

  // ---- whole runs ---------------------------------------------------------------------------------------------

  lemma {:induction false} RunIsMarked(run: seq<State>)
    requires Run(run)
    ensures Marked(Last(run))
    ensures !Last(run).disturbed ==> forall i | 0 <= i < |run| :: !run[i].disturbed
  {
    hide Steps, Marked, Init;
    if |run| == 1 {
      InitMarked(run[0]);
    } else {
      assert Steps(run[|run| - 2], run[|run| - 1]);
      RunIsMarked(run[..|run| - 1]);
      MarkedSteps(run[|run| - 2], run[|run| - 1]);
    }
  }

  lemma DisturbedDoesNotPass(s: State)
    requires Marked(s) && s.ppc == Done && s.disturbed
    ensures Ladder(s.p.r).status != PASS
  {
    hide Ladder;
    if Ladder(s.p.r).status == PASS {
      PassIsContract(s.p.r);
    }
  }

  /** The verdict of a run at its end is PASS exactly if nothing disturbed it. */
  lemma VerdictIsExact(run: seq<State>)
    requires Run(run) && Last(run).ppc == Done
    ensures Ladder(Last(run).p.r).status == PASS <==> !Last(run).disturbed
  {
    hide Init, Steps, Marked, Ladder;
    RunIsMarked(run);
    if Last(run).disturbed {
      DisturbedDoesNotPass(Last(run));
    } else {
      EndsAtBaseline(run);
    }
  }
}
