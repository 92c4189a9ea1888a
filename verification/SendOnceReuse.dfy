/**
 The send-once right cannot be used twice, in any run at all: timeouts, failed calls and the child's
 sudden death included.
 */
module SendOnceReuse {
  import opened Baseline
  import opened MachKernel
  import opened KernelSizes
  import opened SendOnceVerdict
  import opened SendOnceRun

  /** After a successful first use the name is gone, and a second use does not succeed. */
  ghost predicate Spent(s: State) {
    var pn, r := ParentRank(s.ppc), s.p.r;
    && (pn <= 11 ==> r.mrFirst != MACH_MSG_SUCCESS)
    && (pn <= 14 ==> r.mrSecond != MACH_MSG_SUCCESS)
    && (r.mrFirst == MACH_MSG_SUCCESS && pn <= 14 ==> r.delivered !in s.k.parent)
    && !(r.mrFirst == MACH_MSG_SUCCESS && r.mrSecond == MACH_MSG_SUCCESS)
  }

  /** The parent's rights for ports that the child received on are buried. */
  ghost predicate Buries(k: Kernel, l: Kernel) {
    exists ports :: ports <= ReceiveRights(k.child) && l.parent == Buried(k.parent, ports)
  }

  /** What the child does to the parent: at most bury entries of its namespace. */
  ghost predicate ParentKept(s: State, n: Option<State>) {
    n.Some? ==>
      && n.value.ppc == s.ppc && n.value.p == s.p && (n.value.k.parent == s.k.parent || Buries(s.k, n.value.k))
      && n.value.k.parentBootstrap == s.k.parentBootstrap && n.value.k.listing == s.k.listing
  }

  lemma DestroyBuries(k: Kernel, n: Name)
    ensures var l := Destroy(k, Child, n).k;
            (l.parent == k.parent || Buries(k, l)) && l.parentBootstrap == k.parentBootstrap && l.listing == k.listing
  {
    if n in k.child && k.child[n].Rights? && k.child[n].receive {
      assert {k.child[n].port} <= ReceiveRights(k.child);
    }
  }

  lemma ExitBuries(k: Kernel)
    ensures var l := Exit(k, Child);
            Buries(k, l) && l.parentBootstrap == k.parentBootstrap && l.listing == k.listing
  {
  }

  lemma SendKeepsParent(k: Kernel, dest: Name, how: Header, id: Word, d: Descriptor)
    ensures var l := Send(k, Child, dest, how, id, d).k;
            l.parent == k.parent && l.parentBootstrap == k.parentBootstrap && l.listing == k.listing
  {
  }

  lemma ReceiveKeepsParent(k: Kernel, port: Port, n: Name)
    requires port in k.queues && k.queues[port] != []
    ensures var l := Receive(k, Child, port, n).k;
            l.parent == k.parent && l.parentBootstrap == k.parentBootstrap && l.listing == k.listing
  {
  }

  lemma KeptArrive(s: State, ch: Choice)
    requires s.cpc == CGetBootstrap || s.cpc == CBaseline
    ensures ParentKept(s, ChildArrive(s, ch))
  {
    hide PlusSend, BootstrapName, Lists;
  }

  lemma KeptCreate(s: State, ch: Choice)
    requires s.cpc == CAllocate || s.cpc == CCargoType || s.cpc == CExtract
    ensures ParentKept(s, ChildCreate(s, ch))
  {
    hide Type, ExtractOnce;
  }

  lemma KeptInspect(s: State, ch: Choice)
    requires s.cpc == CType || s.cpc == CRefs
    ensures ParentKept(s, ChildInspect(s, ch))
  {
    hide Type, SendOnceRefs;
  }

  lemma KeptSend(s: State, ch: Choice)
    requires s.cpc == CSend
    ensures ParentKept(s, ChildSend(s, ch))
  {
    hide Send;
    SendKeepsParent(s.k, s.c.service, CopySend, DESCRIPTOR_ID, MoveOnce(s.c.once));
  }

  lemma KeptInspectSent(s: State, ch: Choice)
    requires s.cpc == CTypeSent || s.cpc == CRefsSent
    ensures ParentKept(s, ChildInspectSent(s, ch))
  {
    hide Type, SendOnceRefs;
  }

  lemma KeptReceive(s: State, ch: Choice)
    requires s.cpc == CReceive
    ensures ParentKept(s, ChildReceive(s, ch))
  {
    hide Receive, Awaits, DeliveryName;
    var port := Awaits(s.k, Child, s.c.cargo);
    AwaitsQueue(s.k, Child, s.c.cargo);
    if port.Some? && s.k.queues[port.value] != [] {
      ReceiveKeepsParent(s.k, port.value, ch.name);
    }
  }

  lemma KeptReceiveAgain(s: State, ch: Choice)
    requires s.cpc == CReceiveAgain
    ensures ParentKept(s, ChildReceiveAgain(s, ch))
  {
    hide Receive, Awaits, DeliveryName;
    var port := Awaits(s.k, Child, s.c.cargo);
    AwaitsQueue(s.k, Child, s.c.cargo);
    if port.Some? && s.k.queues[port.value] != [] {
      ReceiveKeepsParent(s.k, port.value, ch.name);
    }
  }

  lemma KeptRelease(s: State, ch: Choice)
    requires s.cpc == CCargoTypeAfter || s.cpc == CDropOnce || s.cpc == CDestroy
    ensures ParentKept(s, ChildRelease(s, ch))
  {
    hide Type, Deallocate, Destroy;
    DestroyBuries(s.k, s.c.cargo);
  }

  lemma KeptCleanup(s: State, ch: Choice)
    requires s.cpc == CBaselineAgain || s.cpc == CDrop
    ensures ParentKept(s, ChildCleanup(s, ch))
  {
    hide Lists, Matches, ToInt, Deallocate, ExitCode;
  }

  lemma KeptLeave(s: State, ch: Choice)
    requires s.cpc == CReport || s.cpc == CExit
    ensures ParentKept(s, ChildLeave(s, ch))
  {
    hide Exit;
    ExitBuries(s.k);
  }

  lemma KeptChild(s: State, ch: Choice)
    ensures ParentKept(s, ChildNext(s, ch))
  {
    hide ParentKept, ChildArrive, ChildCreate, ChildInspect, ChildSend, ChildInspectSent, ChildReceive,
         ChildReceiveAgain, ChildRelease, ChildCleanup, ChildLeave;
    match s.cpc
    case CGetBootstrap | CBaseline => KeptArrive(s, ch);
    case CAllocate | CCargoType | CExtract => KeptCreate(s, ch);
    case CType | CRefs => KeptInspect(s, ch);
    case CSend => KeptSend(s, ch);
    case CTypeSent | CRefsSent => KeptInspectSent(s, ch);
    case CReceive => KeptReceive(s, ch);
    case CReceiveAgain => KeptReceiveAgain(s, ch);
    case CCargoTypeAfter | CDropOnce | CDestroy => KeptRelease(s, ch);
    case CBaselineAgain | CDrop => KeptCleanup(s, ch);
    case CReport | CExit => KeptLeave(s, ch);
    case Unborn | Gone => KeptNone(s);
  }

  lemma KeptNone(s: State)
    ensures ParentKept(s, None)
  {
  }

  lemma KeptKilled(s: State)
    ensures ParentKept(s, ChildKilled(s))
  {
    hide Exit;
    ExitBuries(s.k);
  }

  lemma KeptIsSpent(s: State, n: Option<State>)
    requires Spent(s) && ParentKept(s, n)
    ensures n.Some? ==> Spent(n.value)
  {
  }

  // ---- the parent's steps ------------------------------------------------------------------------------

  ghost predicate StaysSpent(n: Option<State>) {
    n.Some? ==> Spent(n.value)
  }

  /** A right used in a header leaves the namespace if the message is accepted. */
  lemma UseConsumes(k: Kernel, n: Name, id: Word)
    ensures var a := Send(k, Parent, n, MoveSendOnce, id, NoDescriptor);
            a.kr == MACH_MSG_SUCCESS ==> n in k.parent && n !in a.k.parent
  {
  }

  lemma SpentOpen(s: State, ch: Choice)
    requires Spent(s) && (s.ppc == PBaseline || s.ppc == PPipe)
    ensures StaysSpent(ParentOpen(s, ch))
  {
    hide Lists;
  }

  lemma SpentCreate(s: State, ch: Choice)
    requires Spent(s) && (s.ppc == PGetBootstrap || s.ppc == PAllocate || s.ppc == PInsert)
    ensures StaysSpent(ParentCreate(s, ch))
  {
    hide GetBootstrap, Allocate, MakeSend, BootstrapName;
  }

  lemma SpentFork(s: State, ch: Choice)
    requires Spent(s) && (s.ppc == PPublish || s.ppc == PFork || s.ppc == PRestore)
    ensures StaysSpent(ParentFork(s, ch))
  {
    hide SetBootstrap;
  }

  lemma SpentReceive(s: State, ch: Choice)
    requires Spent(s) && s.ppc == PReceive
    ensures StaysSpent(ParentReceive(s, ch))
  {
    hide Receive, Awaits, DeliveryName;
    AwaitsQueue(s.k, Parent, s.p.service);
  }

  lemma SpentInspect(s: State, ch: Choice)
    requires Spent(s) && (s.ppc == PType || s.ppc == PRefs)
    ensures StaysSpent(ParentInspect(s, ch))
  {
    hide Type, SendOnceRefs;
  }

  lemma SpentUse(s: State, ch: Choice)
    requires Spent(s) && (s.ppc == PFirst || s.ppc == PSecond)
    ensures StaysSpent(ParentUse(s, ch))
  {
    hide Send, HasSendOnce;
    UseConsumes(s.k, s.p.r.delivered, VERIFY_ID);
    UseConsumes(s.k, s.p.r.delivered, SECOND_ID);
  }

  lemma SpentInspectUsed(s: State, ch: Choice)
    requires Spent(s) && (s.ppc == PTypeAfter || s.ppc == PRefsAfter)
    ensures StaysSpent(ParentInspectUsed(s, ch))
  {
    hide *;
    if s.ppc == PTypeAfter {
      SpentTypeAfter(s, ch);
    } else {
      SpentRefsAfter(s, ch);
    }
  }

  lemma SpentTypeAfter(s: State, ch: Choice)
    requires Spent(s) && s.ppc == PTypeAfter
    ensures StaysSpent(ParentInspectUsed(s, ch))
  {
    hide Type, HasSendOnce, Uses;
  }

  lemma SpentRefsAfter(s: State, ch: Choice)
    requires Spent(s) && s.ppc == PRefsAfter
    ensures StaysSpent(ParentInspectUsed(s, ch))
  {
    hide SendOnceRefs, HasSendOnce, Uses;
  }

  lemma SpentWait(s: State, ch: Choice)
    requires Spent(s) && (s.ppc == PRead || s.ppc == PWait)
    ensures StaysSpent(ParentWait(s, ch))
  {
    hide HasSendOnce;
  }

  lemma SpentReclaim(s: State, ch: Choice)
    requires Spent(s) && (s.ppc == PDeallocate || s.ppc == PDestroy)
    ensures StaysSpent(ParentReclaim(s, ch))
  {
    hide Deallocate, Destroy;
  }

  lemma SpentCleanup(s: State, ch: Choice)
    requires Spent(s) && (s.ppc == PDrop || s.ppc == PBaselineAgain)
    ensures StaysSpent(ParentCleanup(s, ch))
  {
    hide Deallocate, Lists, Matches;
  }

  lemma SpentParent(s: State, ch: Choice)
    requires Spent(s)
    ensures StaysSpent(ParentNext(s, ch))
  {
    hide Spent, ParentOpen, ParentCreate, ParentFork, ParentReceive, ParentInspect, ParentUse, ParentInspectUsed,
         ParentWait, ParentReclaim, ParentCleanup;
    match s.ppc
    case PBaseline | PPipe => SpentOpen(s, ch);
    case PGetBootstrap | PAllocate | PInsert => SpentCreate(s, ch);
    case PPublish | PFork | PRestore => SpentFork(s, ch);
    case PReceive => SpentReceive(s, ch);
    case PType | PRefs => SpentInspect(s, ch);
    case PFirst | PSecond => SpentUse(s, ch);
    case PTypeAfter | PRefsAfter => SpentInspectUsed(s, ch);
    case PRead | PWait => SpentWait(s, ch);
    case PDeallocate | PDestroy => SpentReclaim(s, ch);
    case PDrop | PBaselineAgain => SpentCleanup(s, ch);
    case Done =>
  }

  // ---- whole runs ---------------------------------------------------------------------------------------------

  lemma SpentSteps(s: State, t: State)
    requires Spent(s) && Steps(s, t)
    ensures Spent(t)
  {
    hide Spent, ParentNext, ChildNext, ChildKilled, ParentKept;
    var m :| Next(s, m) == Some(t);
    match m {
      case ParentMoves(ch) => SpentParent(s, ch);
      case ChildMoves(ch) => KeptChild(s, ch);
      case ChildDies => KeptKilled(s);
    }
    if !m.ParentMoves? {
      KeptIsSpent(s, Some(t));
    }
  }

  lemma {:induction false} RunIsSpent(run: seq<State>)
    requires Run(run)
    ensures Spent(Last(run))
  {
    hide Steps, Spent, Init;
    if |run| == 1 {
      StartsSpent(run[0]);
    } else {
      assert Steps(run[|run| - 2], run[|run| - 1]);
      RunIsSpent(run[..|run| - 1]);
      SpentSteps(run[|run| - 2], run[|run| - 1]);
    }
  }

  lemma StartsSpent(s: State)
    requires Init(s)
    ensures Spent(s)
  {
  }

  /** In no run do both uses of the delivered right succeed, so at most one message goes through it. */
  lemma NeverUsedTwice(run: seq<State>)
    requires Run(run)
    ensures var r := Last(run).p.r; !(r.mrFirst == MACH_MSG_SUCCESS && r.mrSecond == MACH_MSG_SUCCESS)
  {
    hide Steps, Init;
    RunIsSpent(run);
  }
}
