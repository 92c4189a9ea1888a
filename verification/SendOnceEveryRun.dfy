/**
 In every run of the send-once probe, however it is disturbed, there is at most one send-once right for
 the cargo port, and at most one message ever comes to its queue.
 */
module SendOnceEveryRun {
  import opened Baseline
  import opened MachKernel
  import opened KernelSizes
  import opened Rendezvous
  import opened SendOnceVerdict
  import opened SendOnceRun
  import opened SendOnceKernel
  import opened SendOnceReuse
  import opened SendOnceSides

  function ParentsView(s: State): ParentView {
    var r := s.p.r;
    ParentView(s.p.service, r.delivered, r.krAllocService == KERN_SUCCESS, r.mrReceive == MACH_MSG_SUCCESS,
               r.mrFirst == MACH_MSG_SUCCESS || r.mrSecond == MACH_MSG_SUCCESS)
  }

  function ChildsView(s: State): ChildView {
    var c, st := s.c, s.c.st;
    ChildView(c.service, c.cargo, c.once, st.krAllocCargo == KERN_SUCCESS, st.krExtract == KERN_SUCCESS, st.mrSend == MACH_MSG_SUCCESS)
  }

  /** Uses of the delivered right that succeeded. */
  function Successes(r: Results): nat {
    (if r.mrFirst == MACH_MSG_SUCCESS then 1 else 0) + (if r.mrSecond == MACH_MSG_SUCCESS then 1 else 0)
  }

  /** The special ports, the next port, and which results need which. */
  ghost predicate Ports(o: Kernel, s: State) {
    var pn, cn, r, st, k := ParentRank(s.ppc), ChildRank(s.cpc), s.p.r, s.c.st, s.k;
    && (s.cpc == Unborn <==> !r.forked)
    && (r.forked ==> pn > 6 && r.krAllocService == KERN_SUCCESS && k.childBootstrap == o.next)
    && (r.krPublish == KERN_SUCCESS ==> r.krInsertService == KERN_SUCCESS)
    && (r.krInsertService == KERN_SUCCESS ==> r.krAllocService == KERN_SUCCESS)
    && (pn <= 3 ==> k.next == o.next && r.krAllocService != KERN_SUCCESS)
    && (pn <= 5 ==> r.krPublish != KERN_SUCCESS) && (pn <= 4 ==> r.krInsertService != KERN_SUCCESS)
    && (r.krAllocService == KERN_SUCCESS && cn <= 3 ==> k.next == o.next + 1)
    && k.parentBootstrap != o.next + 1
    && (pn == 6 && r.krPublish == KERN_SUCCESS ==> k.parentBootstrap == o.next)
    && (pn <= 8 ==> r.mrReceive != MACH_MSG_SUCCESS) && (cn <= 8 ==> st.mrSend != MACH_MSG_SUCCESS)
    && (r.mrReceive == MACH_MSG_SUCCESS ==> st.mrSend == MACH_MSG_SUCCESS)
    && (cn <= 3 ==> st.krAllocCargo != KERN_SUCCESS) && (cn <= 4 ==> st.krCargoType != KERN_SUCCESS)
    && (cn <= 5 ==> st.krExtract != KERN_SUCCESS) && (cn <= 6 ==> st.krType != KERN_SUCCESS)
    && (st.krCargoType == KERN_SUCCESS ==> st.krAllocCargo == KERN_SUCCESS)
    && (st.krExtract == KERN_SUCCESS ==> st.krAllocCargo == KERN_SUCCESS)
    && (st.krType == KERN_SUCCESS ==> st.krExtract == KERN_SUCCESS)
    && (st.mrSend == MACH_MSG_SUCCESS ==> st.krType == KERN_SUCCESS)
    && (r.mrReceive != MACH_MSG_SUCCESS ==> r.delivered == MACH_PORT_NULL)
    && (st.krExtract != KERN_SUCCESS ==> s.c.once == MACH_PORT_NULL)
  }

  ghost predicate Sides(o: Kernel, s: State) {
    var pn, cn, pv, cv := ParentRank(s.ppc), ChildRank(s.cpc), ParentsView(s), ChildsView(s);
    && ParentSide(o, s.k.parent, pv, pn) && ChildSide(o, s.k.child, cv, cn)
    && QueueSide(o, s.k.queues, cv.sent, pv.received, cn)
  }

  /** The invariant, and a message more for the cargo port only by a use that succeeded. */
  ghost predicate Keeps(o: Kernel, s: State, n: Option<State>) {
    n.Some? ==>
      && Ports(o, n.value) && Sides(o, n.value)
      && Waiting(n.value.k.queues, o.next + 1) + Successes(s.p.r) <= Waiting(s.k.queues, o.next + 1) + Successes(n.value.p.r)
      && Successes(s.p.r) <= Successes(n.value.p.r)
  }

  lemma Starts(s: State)
    requires Init(s)
    ensures Ready(s.k) && Ports(s.k, s) && Sides(s.k, s)
  {
    hide ParentSide, ChildSide, QueueSide;
    ParentStarts(s.k, ParentsView(s));
    ChildStarts(s.k, ChildsView(s));
    QueuesStart(s.k);
    assert s.k.parentBootstrap < s.k.next;
  }

  // ---- the child's steps ------------------------------------------------------------------------------------

  lemma KeepFind(o: Kernel, s: State, ch: Choice)
    requires Ports(o, s) && Sides(o, s) && s.cpc == CGetBootstrap
    ensures Keeps(o, s, ChildArrive(s, ch))
  {
    hide ParentSide, ChildSide, QueueSide, Waiting, PlusSend, SendName;
    var cn := ChildRank(s.cpc);
    QueuesOn(o, s.k.queues, ChildsView(s).sent, ParentsView(s).received, cn, cn + 1);
    if BootstrapName(s.k, Child, ch.name) {
      ChildBoots(o, s.k.child, ChildsView(s), ch.name, o.next in s.k.queues);
      assert ChildsView(ChildArrive(s, ch).value) == ChildsView(s).(service := ch.name);
    }
  }

  lemma KeepBaseline(o: Kernel, s: State, ch: Choice)
    requires Ports(o, s) && Sides(o, s) && s.cpc == CBaseline
    ensures Keeps(o, s, ChildArrive(s, ch))
  {
    hide ParentSide, ChildSide, QueueSide, Waiting, Lists;
    var cn := ChildRank(s.cpc);
    QueuesOn(o, s.k.queues, ChildsView(s).sent, ParentsView(s).received, cn, cn + 1);
    ChildOn(o, s.k.child, ChildsView(s), cn);
  }

  lemma KeepAllocate(o: Kernel, s: State, ch: Choice)
    requires Ports(o, s) && Sides(o, s) && s.cpc == CAllocate
    ensures Keeps(o, s, ChildCreate(s, ch))
  {
    hide ParentSide, ChildSide, QueueSide, Waiting, Type, ExtractOnce;
    var cn := ChildRank(s.cpc);
    QueuesOn(o, s.k.queues, ChildsView(s).sent, ParentsView(s).received, cn, cn + 1);
    if s.c.st.krGetBootstrap != KERN_SUCCESS || ch.fail {
      ChildOn(o, s.k.child, ChildsView(s), cn);
    } else if FreeName(s.k.child, ch.name) {
      ChildAllocates(o, s.k.child, ChildsView(s), ch.name);
      CargoQueueMade(o, s.k.queues, ChildsView(s).sent, ParentsView(s).received);
      assert ChildsView(ChildCreate(s, ch).value) == ChildsView(s).(cargo := ch.name, alloc := true);
    }
  }

  lemma KeepCargoType(o: Kernel, s: State, ch: Choice)
    requires Ports(o, s) && Sides(o, s) && s.cpc == CCargoType
    ensures Keeps(o, s, ChildCreate(s, ch))
  {
    hide ParentSide, ChildSide, QueueSide, Waiting, Type, ExtractOnce, Allocate;
    var cn := ChildRank(s.cpc);
    QueuesOn(o, s.k.queues, ChildsView(s).sent, ParentsView(s).received, cn, cn + 1);
    ChildOn(o, s.k.child, ChildsView(s), cn);
  }

  lemma KeepExtract(o: Kernel, s: State, ch: Choice)
    requires Ports(o, s) && Sides(o, s) && s.cpc == CExtract
    ensures Keeps(o, s, ChildCreate(s, ch))
  {
    hide ParentSide, ChildSide, QueueSide, Waiting, Type, ExtractOnce, Allocate;
    var cn := ChildRank(s.cpc);
    QueuesOn(o, s.k.queues, ChildsView(s).sent, ParentsView(s).received, cn, cn + 1);
    if s.c.st.krCargoType != KERN_SUCCESS {
      ChildOn(o, s.k.child, ChildsView(s), cn);
    } else if FreeName(s.k.child, ch.name) {
      ChildExtracts(o, s.k.child, ChildsView(s), ch.name);
      assert ChildsView(ChildCreate(s, ch).value) == ChildsView(s).(once := ch.name, extracted := true);
    }
  }

  lemma KeepInspect(o: Kernel, s: State, ch: Choice)
    requires Ports(o, s) && Sides(o, s) && (s.cpc == CType || s.cpc == CRefs)
    ensures Keeps(o, s, ChildInspect(s, ch))
  {
    hide ParentSide, ChildSide, QueueSide, Waiting, Type, SendOnceRefs;
    var cn := ChildRank(s.cpc);
    QueuesOn(o, s.k.queues, ChildsView(s).sent, ParentsView(s).received, cn, cn + 1);
    ChildOn(o, s.k.child, ChildsView(s), cn);
  }

  lemma KeepSend(o: Kernel, s: State, ch: Choice)
    requires Ports(o, s) && Sides(o, s) && s.cpc == CSend
    ensures Keeps(o, s, ChildSend(s, ch))
  {
    hide ParentSide, ChildSide, QueueSide, Waiting, Send;
    var cn := ChildRank(s.cpc);
    QueuesOn(o, s.k.queues, ChildsView(s).sent, ParentsView(s).received, cn, cn + 1);
    var v := ChildsView(s);
    ChildOn(o, s.k.child, v, cn);
    if s.c.st.krType == KERN_SUCCESS {
      SendOutcome(o, s.k, v, ParentsView(s).received);
    }
  }

  lemma KeepInspectSent(o: Kernel, s: State, ch: Choice)
    requires Ports(o, s) && Sides(o, s) && (s.cpc == CTypeSent || s.cpc == CRefsSent)
    ensures Keeps(o, s, ChildInspectSent(s, ch))
  {
    hide ParentSide, ChildSide, QueueSide, Waiting, Type, SendOnceRefs;
    var cn := ChildRank(s.cpc);
    QueuesOn(o, s.k.queues, ChildsView(s).sent, ParentsView(s).received, cn, cn + 1);
    ChildOn(o, s.k.child, ChildsView(s), cn);
  }

  lemma KeepReceive(o: Kernel, s: State, ch: Choice)
    requires Ports(o, s) && Sides(o, s) && s.cpc == CReceive
    ensures Keeps(o, s, ChildReceive(s, ch))
  {
    hide ParentSide, ChildSide, QueueSide, Waiting, Receive, Awaits, DeliveryName;
    var cn := ChildRank(s.cpc);
    QueuesOn(o, s.k.queues, ChildsView(s).sent, ParentsView(s).received, cn, cn + 1);
    ChildOn(o, s.k.child, ChildsView(s), cn);
    AwaitsCargo(o, s.k, ChildsView(s), cn);
    if o.next + 1 in s.k.queues && s.k.queues[o.next + 1] != [] {
      UseTaken(o, s.k.queues, ChildsView(s).sent, ParentsView(s).received, cn + 1);
      TakenQueue(o, s.k, ch.name);
    }
  }

  lemma KeepReceiveAgain(o: Kernel, s: State, ch: Choice)
    requires Ports(o, s) && Sides(o, s) && s.cpc == CReceiveAgain
    ensures Keeps(o, s, ChildReceiveAgain(s, ch))
  {
    hide ParentSide, ChildSide, QueueSide, Waiting, Receive, Awaits, DeliveryName;
    var cn := ChildRank(s.cpc);
    QueuesOn(o, s.k.queues, ChildsView(s).sent, ParentsView(s).received, cn, cn + 1);
    ChildOn(o, s.k.child, ChildsView(s), cn);
    AwaitsCargo(o, s.k, ChildsView(s), cn);
    if o.next + 1 in s.k.queues && s.k.queues[o.next + 1] != [] {
      UseTaken(o, s.k.queues, ChildsView(s).sent, ParentsView(s).received, cn + 1);
      TakenQueue(o, s.k, ch.name);
    }
  }

  lemma KeepCargoTypeAfter(o: Kernel, s: State, ch: Choice)
    requires Ports(o, s) && Sides(o, s) && s.cpc == CCargoTypeAfter
    ensures Keeps(o, s, ChildRelease(s, ch))
  {
    hide ParentSide, ChildSide, QueueSide, Waiting, Type, Deallocate, Destroy;
    var cn := ChildRank(s.cpc);
    QueuesOn(o, s.k.queues, ChildsView(s).sent, ParentsView(s).received, cn, cn + 1);
    ChildOn(o, s.k.child, ChildsView(s), cn);
  }

  lemma KeepDropOnce(o: Kernel, s: State, ch: Choice)
    requires Ports(o, s) && Sides(o, s) && s.cpc == CDropOnce
    ensures Keeps(o, s, ChildRelease(s, ch))
  {
    hide ParentSide, ChildSide, QueueSide, Waiting, Type, Deallocate, Destroy;
    var cn := ChildRank(s.cpc);
    QueuesOn(o, s.k.queues, ChildsView(s).sent, ParentsView(s).received, cn, cn + 1);
    ChildOn(o, s.k.child, ChildsView(s), cn);
    if s.c.once != MACH_PORT_NULL {
      OnceApart(o, s.k.child, ChildsView(s), cn);
      ChildDeallocates(o, s.k.child, ChildsView(s), cn, s.c.once);
    }
  }

  lemma KeepDestroy(o: Kernel, s: State, ch: Choice)
    requires Ports(o, s) && Sides(o, s) && s.cpc == CDestroy
    ensures Keeps(o, s, ChildRelease(s, ch))
  {
    hide ParentSide, ChildSide, QueueSide, Waiting, Type, Deallocate, Destroy;
    var cn := ChildRank(s.cpc);
    QueuesOn(o, s.k.queues, ChildsView(s).sent, ParentsView(s).received, cn, cn + 1);
    ChildOn(o, s.k.child, ChildsView(s), cn);
    if s.c.st.krAllocCargo == KERN_SUCCESS {
      CargoDestroyed(o, s.k, ParentsView(s), ParentRank(s.ppc), ChildsView(s));
    }
  }

  lemma KeepBaselineAgain(o: Kernel, s: State, ch: Choice)
    requires Ports(o, s) && Sides(o, s) && s.cpc == CBaselineAgain
    ensures Keeps(o, s, ChildCleanup(s, ch))
  {
    hide ParentSide, ChildSide, QueueSide, Waiting, Deallocate, Lists, Matches, ToInt, ExitCode;
    var cn := ChildRank(s.cpc);
    QueuesOn(o, s.k.queues, ChildsView(s).sent, ParentsView(s).received, cn, cn + 1);
    ChildOn(o, s.k.child, ChildsView(s), cn);
  }

  lemma KeepDrop(o: Kernel, s: State, ch: Choice)
    requires Ports(o, s) && Sides(o, s) && s.cpc == CDrop
    ensures Keeps(o, s, ChildCleanup(s, ch))
  {
    hide ParentSide, ChildSide, QueueSide, Waiting, Deallocate, Lists, Matches, ToInt, ExitCode;
    var cn := ChildRank(s.cpc);
    QueuesOn(o, s.k.queues, ChildsView(s).sent, ParentsView(s).received, cn, cn + 1);
    if s.c.st.krGetBootstrap != KERN_SUCCESS || s.c.service == MACH_PORT_NULL {
      ChildOn(o, s.k.child, ChildsView(s), cn);
    } else {
      ChildDeallocates(o, s.k.child, ChildsView(s), cn, s.c.service);
    }
  }

  lemma KeepLeave(o: Kernel, s: State, ch: Choice)
    requires Ports(o, s) && Sides(o, s) && (s.cpc == CReport || s.cpc == CExit)
    ensures Keeps(o, s, ChildLeave(s, ch))
  {
    hide ParentSide, ChildSide, QueueSide, Waiting, Exit;
    var cn := ChildRank(s.cpc);
    QueuesOn(o, s.k.queues, ChildsView(s).sent, ParentsView(s).received, cn, cn + 1);
    if s.cpc == CReport {
      ChildOn(o, s.k.child, ChildsView(s), cn);
    } else {
      ExitKeeps(o, s.k, ParentsView(s), ParentRank(s.ppc), ChildsView(s), cn);
    }
  }

  lemma KeepKilled(o: Kernel, s: State)
    requires Ports(o, s) && Sides(o, s)
    ensures Keeps(o, s, ChildKilled(s))
  {
    hide ParentSide, ChildSide, QueueSide, Waiting, Exit;
    if s.cpc != Unborn && s.cpc != Gone {
      ExitKeeps(o, s.k, ParentsView(s), ParentRank(s.ppc), ChildsView(s), ChildRank(s.cpc));
    }
  }

  // ---- what the child's calls do ----------------------------------------------------------------------------

  /** Sending the descriptor: either it goes to the service port, or nothing changes. */
  lemma SendOutcome(o: Kernel, k: Kernel, v: ChildView, received: bool)
    requires ChildSide(o, k.child, v, 8) && QueueSide(o, k.queues, false, received, 9) && !v.sent && !received && v.extracted
    ensures var a := Send(k, Child, v.service, CopySend, DESCRIPTOR_ID, MoveOnce(v.once));
            if a.kr == MACH_MSG_SUCCESS then
              && ChildSide(o, a.k.child, v.(sent := true), 9) && QueueSide(o, a.k.queues, true, false, 9)
              && Waiting(a.k.queues, o.next + 1) == Waiting(k.queues, o.next + 1)
              && a.k == k.(child := a.k.child, queues := a.k.queues)
            else a.k == k
  {
    Refused(k, Child, v.service, CopySend, DESCRIPTOR_ID, MoveOnce(v.once));
    var a := Send(k, Child, v.service, CopySend, DESCRIPTOR_ID, MoveOnce(v.once));
    if a.kr == MACH_MSG_SUCCESS {
      DescriptorCopyin(o, k.child, v);
      ChildSends(o, k.child, v);
      hide ChildSide, QueueSide, CopyinHeader, CopyinDescriptor, Send, Waiting;
      DescriptorQueued(o, k.queues, 9);
      Sent(k, Child, v.service, CopySend, DESCRIPTOR_ID, MoveOnce(v.once), o.next, k.child, k.child - {v.once}, CarriedSendOnce(o.next + 1));
    }
  }

  lemma DescriptorCopyin(o: Kernel, sp: Space, v: ChildView)
    requires ChildSide(o, sp, v, 8) && v.extracted && CopyinHeader(sp, v.service, CopySend).Some?
    ensures CopyinHeader(sp, v.service, CopySend) == Some(Copyin(sp, o.next))
    ensures CopyinDescriptor(sp, MoveOnce(v.once)) == Some(Copyin(sp - {v.once}, CarriedSendOnce(o.next + 1)))
  {
  }

  lemma AwaitsCargo(o: Kernel, k: Kernel, v: ChildView, cn: nat)
    requires ChildSide(o, k.child, v, cn) && 11 <= cn <= 12
    ensures v.alloc ==> Awaits(k, Child, v.cargo) == if o.next + 1 in k.queues then Some(o.next + 1) else None
  {
  }

  lemma TakenQueue(o: Kernel, k: Kernel, n: Name)
    requires o.next + 1 in k.queues && k.queues[o.next + 1] != [] && k.queues[o.next + 1][0].cargo == NoCargo
    ensures Receive(k, Child, o.next + 1, n).k == k.(queues := k.queues[o.next + 1 := k.queues[o.next + 1][1..]])
  {
  }

  lemma OnceApart(o: Kernel, sp: Space, v: ChildView, cn: nat)
    requires ChildSide(o, sp, v, cn) && v.extracted
    ensures v.once != v.cargo && v.once != v.service
  {
  }

  lemma CargoDestroyed(o: Kernel, k: Kernel, pv: ParentView, pn: nat, v: ChildView)
    requires ParentSide(o, k.parent, pv, pn) && ChildSide(o, k.child, v, 15) && v.alloc
    requires QueueSide(o, k.queues, v.sent, pv.received, 16)
    ensures var a := Destroy(k, Child, v.cargo);
            && ParentSide(o, a.k.parent, pv, pn) && ChildSide(o, a.k.child, v, 16) && QueueSide(o, a.k.queues, v.sent, pv.received, 16)
            && Waiting(a.k.queues, o.next + 1) <= Waiting(k.queues, o.next + 1)
            && a.k == k.(parent := a.k.parent, child := a.k.child, queues := a.k.queues)
  {
    hide ParentSide, ChildSide, QueueSide, Waiting, Buried, Destroy;
    ChildDestroys(o, k.child, v);
    ParentBuried(o, k.parent, pv, pn, {o.next + 1});
    QueuesDie(o, k.queues, v.sent, pv.received, 16, {o.next + 1});
    Destroyed(k, Child, v.cargo);
  }

  lemma ExitKeeps(o: Kernel, k: Kernel, pv: ParentView, pn: nat, v: ChildView, cn: nat)
    requires ParentSide(o, k.parent, pv, pn) && ChildSide(o, k.child, v, cn)
    requires QueueSide(o, k.queues, v.sent, pv.received, cn) && cn <= 20
    ensures var l := Exit(k, Child);
            && ParentSide(o, l.parent, pv, pn) && ChildSide(o, l.child, v, 20) && QueueSide(o, l.queues, v.sent, pv.received, 20)
            && Waiting(l.queues, o.next + 1) <= Waiting(k.queues, o.next + 1)
            && l == k.(parent := l.parent, child := l.child, queues := l.queues)
  {
    ApartAlways(o, k.child, v, cn);
    hide ParentSide, ChildSide, QueueSide, Waiting, Buried, ReceiveRights;
    var gone := ReceiveRights(k.child);
    ChildReceiveRights(o, k.child, v, cn);
    ParentBuried(o, k.parent, pv, pn, gone);
    QueuesOn(o, k.queues, v.sent, pv.received, cn, 20);
    QueuesDie(o, k.queues, v.sent, pv.received, 20, gone);
    ChildGone(o, v, 20);
    BuriedNothing(gone);
  }

  lemma ApartAlways(o: Kernel, sp: Space, v: ChildView, cn: nat)
    requires ChildSide(o, sp, v, cn)
    ensures v.extracted ==> v.once != v.cargo && v.once != v.service
  {
  }

  lemma NoKeeping(o: Kernel, s: State)
    ensures Keeps(o, s, None)
  {
  }

  lemma KeepChild(o: Kernel, s: State, ch: Choice)
    requires Ports(o, s) && Sides(o, s)
    ensures Keeps(o, s, ChildNext(s, ch))
  {
    hide Ports, Sides, Keeps, ChildArrive, ChildCreate, ChildInspect, ChildSend, ChildInspectSent, ChildReceive,
         ChildReceiveAgain, ChildRelease, ChildCleanup, ChildLeave;
    match s.cpc
    case CGetBootstrap => KeepFind(o, s, ch);
    case CBaseline => KeepBaseline(o, s, ch);
    case CAllocate => KeepAllocate(o, s, ch);
    case CCargoType => KeepCargoType(o, s, ch);
    case CExtract => KeepExtract(o, s, ch);
    case CType | CRefs => KeepInspect(o, s, ch);
    case CSend => KeepSend(o, s, ch);
    case CTypeSent | CRefsSent => KeepInspectSent(o, s, ch);
    case CReceive => KeepReceive(o, s, ch);
    case CReceiveAgain => KeepReceiveAgain(o, s, ch);
    case CCargoTypeAfter => KeepCargoTypeAfter(o, s, ch);
    case CDropOnce => KeepDropOnce(o, s, ch);
    case CDestroy => KeepDestroy(o, s, ch);
    case CBaselineAgain => KeepBaselineAgain(o, s, ch);
    case CDrop => KeepDrop(o, s, ch);
    case CReport | CExit => KeepLeave(o, s, ch);
    case Unborn | Gone => NoKeeping(o, s);
  }

  // ---- the parent's steps ------------------------------------------------------------------------------

  lemma KeepOpen(o: Kernel, s: State, ch: Choice)
    requires Ready(o) && Spent(s) && Ports(o, s) && Sides(o, s) && (s.ppc == PBaseline || s.ppc == PPipe)
    ensures Keeps(o, s, ParentOpen(s, ch))
  {
    hide Ready, ParentSide, ChildSide, QueueSide, Waiting, Lists;
    var pn, v := ParentRank(s.ppc), ParentsView(s);
    ParentOn(o, s.k.parent, v, pn);
  }

  lemma KeepOriginal(o: Kernel, s: State, ch: Choice)
    requires Ready(o) && Spent(s) && Ports(o, s) && Sides(o, s) && s.ppc == PGetBootstrap
    ensures Keeps(o, s, ParentCreate(s, ch))
  {
    hide Ready, ParentSide, ChildSide, QueueSide, Waiting, PlusSend, SendName, Allocate, MakeSend;
    var pn, v := ParentRank(s.ppc), ParentsView(s);
    ParentOn(o, s.k.parent, v, pn);
    if BootstrapName(s.k, Parent, ch.name) && s.k.parentBootstrap in s.k.queues {
      ParentBoots(o, s.k.parent, v, s.k.parentBootstrap, ch.name);
    }
  }

  lemma KeepService(o: Kernel, s: State, ch: Choice)
    requires Ready(o) && Spent(s) && Ports(o, s) && Sides(o, s) && s.ppc == PAllocate
    ensures Keeps(o, s, ParentCreate(s, ch))
  {
    hide Ready, ParentSide, ChildSide, QueueSide, Waiting, GetBootstrap, MakeSend;
    var pn, v := ParentRank(s.ppc), ParentsView(s);
    ParentOn(o, s.k.parent, v, pn);
    if !ch.fail && FreeName(s.k.parent, ch.name) {
      ParentAllocates(o, s.k.parent, v, ch.name);
      ServiceQueue(o, s.k.queues, ChildsView(s).sent, v.received, ChildRank(s.cpc));
      if s.p.r.krGetBootstrap == KERN_SUCCESS {
        assert ParentsView(ParentCreate(s, ch).value) == v.(service := ch.name, alloc := true);
      }
    }
  }

  lemma KeepInsert(o: Kernel, s: State, ch: Choice)
    requires Ready(o) && Spent(s) && Ports(o, s) && Sides(o, s) && s.ppc == PInsert
    ensures Keeps(o, s, ParentCreate(s, ch))
  {
    hide Ready, ParentSide, ChildSide, QueueSide, Waiting, GetBootstrap, Allocate, MakeSend;
    var pn, v := ParentRank(s.ppc), ParentsView(s);
    ParentOn(o, s.k.parent, v, pn);
    ParentMakesSend(o, s.k.parent, v);
  }

  lemma KeepPublish(o: Kernel, s: State, ch: Choice)
    requires Ready(o) && Spent(s) && Ports(o, s) && Sides(o, s) && s.ppc == PPublish
    ensures Keeps(o, s, ParentFork(s, ch))
  {
    hide Ready, ParentSide, ChildSide, QueueSide, Waiting, SetBootstrap;
    var pn, v := ParentRank(s.ppc), ParentsView(s);
    ParentOn(o, s.k.parent, v, pn);
    ServicePublished(o, s.k, v);
  }

  lemma KeepFork(o: Kernel, s: State, ch: Choice)
    requires Ready(o) && Spent(s) && Ports(o, s) && Sides(o, s) && s.ppc == PFork
    ensures Keeps(o, s, ParentFork(s, ch))
  {
    hide Ready, ParentSide, ChildSide, QueueSide, Waiting, SetBootstrap;
    var pn, v := ParentRank(s.ppc), ParentsView(s);
    ParentOn(o, s.k.parent, v, pn);
    if s.cpc == Unborn {
      ChildOn(o, s.k.child, ChildsView(s), 0);
    }
    QueuesOn(o, s.k.queues, ChildsView(s).sent, v.received, 0, 1);
  }

  lemma KeepRestore(o: Kernel, s: State, ch: Choice)
    requires Ready(o) && Spent(s) && Ports(o, s) && Sides(o, s) && s.ppc == PRestore
    ensures Keeps(o, s, ParentFork(s, ch))
  {
    hide Ready, ParentSide, ChildSide, QueueSide, Waiting, SetBootstrap;
    var pn, v := ParentRank(s.ppc), ParentsView(s);
    ParentOn(o, s.k.parent, v, pn);
    NeverCargo(o, s.k, v, s.p.bootstrap);
  }

  lemma KeepDelivery(o: Kernel, s: State, ch: Choice)
    requires Ready(o) && Spent(s) && Ports(o, s) && Sides(o, s) && s.ppc == PReceive
    ensures Keeps(o, s, ParentReceive(s, ch))
  {
    hide Ready, ParentSide, ChildSide, QueueSide, Waiting, Receive, Awaits, DeliveryName;
    var pn, v := ParentRank(s.ppc), ParentsView(s);
    ParentOn(o, s.k.parent, v, pn);
    AwaitsService(o, s.k, v);
    if s.p.r.forked && o.next in s.k.queues && s.k.queues[o.next] != [] {
      DescriptorReceived(o, s.k.queues, ChildsView(s).sent, v.received, ChildRank(s.cpc));
      if DeliveryName(s.k, Parent, s.k.queues[o.next][0].cargo, ch.name) {
        DeliveryOutcome(o, s.k, v, ch.name);
        assert ParentsView(ParentReceive(s, ch).value)
            == v.(delivered := Receive(s.k, Parent, o.next, ch.name).name, received := true);
      }
    }
  }

  lemma KeepLook(o: Kernel, s: State, ch: Choice)
    requires Ready(o) && Spent(s) && Ports(o, s) && Sides(o, s) && (s.ppc == PType || s.ppc == PRefs)
    ensures Keeps(o, s, ParentInspect(s, ch))
  {
    hide Ready, ParentSide, ChildSide, QueueSide, Waiting, Type, SendOnceRefs;
    var pn, v := ParentRank(s.ppc), ParentsView(s);
    ParentOn(o, s.k.parent, v, pn);
  }

  lemma KeepUse(o: Kernel, s: State, ch: Choice)
    requires Ready(o) && Spent(s) && Ports(o, s) && Sides(o, s) && (s.ppc == PFirst || s.ppc == PSecond)
    ensures Keeps(o, s, ParentUse(s, ch))
  {
    hide Ready, ParentSide, ChildSide, QueueSide, Waiting, Send, HasSendOnce, Uses;
    var pn, v := ParentRank(s.ppc), ParentsView(s);
    ParentOn(o, s.k.parent, v, pn);
    UsesReceived(s.p.r);
    if v.received {
      UseOutcome(o, s.k, v, pn, ChildsView(s).sent, ChildRank(s.cpc), if s.ppc == PFirst then VERIFY_ID else SECOND_ID);
    }
  }

  lemma UsesReceived(r: Results)
    ensures Uses(r) ==> r.mrReceive == MACH_MSG_SUCCESS
  {
  }

  /** A step of the parent that only learns something, and nothing the invariant speaks of. */
  lemma KeepLearned(o: Kernel, s: State, t: State)
    requires Ports(o, s) && Sides(o, s) && 9 <= ParentRank(s.ppc)
    requires ParentRank(t.ppc) == ParentRank(s.ppc) + 1 && t.cpc == s.cpc && t.c == s.c && t.k == s.k
    requires ParentsView(t) == ParentsView(s) && Successes(t.p.r) == Successes(s.p.r)
    requires t.p.r.forked == s.p.r.forked && t.p.r.krPublish == s.p.r.krPublish && t.p.r.mrReceive == s.p.r.mrReceive
    requires t.p.r.krInsertService == s.p.r.krInsertService && t.p.r.krAllocService == s.p.r.krAllocService
    ensures Keeps(o, s, Some(t))
  {
    hide ParentSide, ChildSide, QueueSide, Waiting, Successes;
    ParentOn(o, s.k.parent, ParentsView(s), ParentRank(s.ppc));
  }

  lemma KeepLookUsed(o: Kernel, s: State, ch: Choice)
    requires Ports(o, s) && Sides(o, s) && (s.ppc == PTypeAfter || s.ppc == PRefsAfter)
    ensures Keeps(o, s, ParentInspectUsed(s, ch))
  {
    hide Ports, Sides, Keeps, Type, SendOnceRefs, Uses;
    var t := ParentInspectUsed(s, ch).value;
    assert t.p.r == s.p.r.(krTypeAfter := t.p.r.krTypeAfter, typeAfter := t.p.r.typeAfter,
                           krRefsAfter := t.p.r.krRefsAfter, refsAfter := t.p.r.refsAfter);
    KeepLearned(o, s, t);
  }

  lemma KeepWait(o: Kernel, s: State, ch: Choice)
    requires Ports(o, s) && Sides(o, s) && (s.ppc == PRead || s.ppc == PWait)
    ensures Keeps(o, s, ParentWait(s, ch))
  {
    hide Ports, Sides, Keeps;
    var n := ParentWait(s, ch);
    if n.Some? {
      KeepLearned(o, s, n.value);
    } else {
      NoKeeping(o, s);
    }
  }

  lemma KeepDeallocate(o: Kernel, s: State, ch: Choice)
    requires Ready(o) && Spent(s) && Ports(o, s) && Sides(o, s) && s.ppc == PDeallocate
    ensures Keeps(o, s, ParentReclaim(s, ch))
  {
    hide Ready, ParentSide, ChildSide, QueueSide, Waiting, Deallocate, Destroy;
    var pn, v := ParentRank(s.ppc), ParentsView(s);
    ParentOn(o, s.k.parent, v, pn);
    if s.p.r.delivered != MACH_PORT_NULL {
      DeliveredApart(o, s.k.parent, v, pn);
      ParentDeallocates(o, s.k.parent, v, pn, s.p.r.delivered);
    }
  }

  lemma KeepDestroyService(o: Kernel, s: State, ch: Choice)
    requires Ready(o) && Spent(s) && Ports(o, s) && Sides(o, s) && s.ppc == PDestroy
    ensures Keeps(o, s, ParentReclaim(s, ch))
  {
    hide Ready, ParentSide, ChildSide, QueueSide, Waiting, Deallocate, Destroy;
    var pn, v := ParentRank(s.ppc), ParentsView(s);
    ParentOn(o, s.k.parent, v, pn);
    if v.alloc {
      ServiceDestroyed(o, s.k, v, ChildsView(s), ChildRank(s.cpc));
    }
  }

  lemma KeepDropBootstrap(o: Kernel, s: State, ch: Choice)
    requires Ports(o, s) && Sides(o, s) && s.ppc == PDrop
    ensures Keeps(o, s, ParentCleanup(s, ch))
  {
    hide ParentSide, ChildSide, QueueSide, Waiting, Deallocate;
    var v := ParentsView(s);
    if s.p.bootstrap == MACH_PORT_NULL {
      ParentOn(o, s.k.parent, v, 19);
    } else {
      ParentDeallocates(o, s.k.parent, v, 19, s.p.bootstrap);
    }
  }

  lemma KeepEnd(o: Kernel, s: State, ch: Choice)
    requires Ports(o, s) && Sides(o, s) && s.ppc == PBaselineAgain
    ensures Keeps(o, s, ParentCleanup(s, ch))
  {
    hide ParentSide, ChildSide, QueueSide, Waiting, Lists, Matches;
    ParentOn(o, s.k.parent, ParentsView(s), 20);
  }

  // ---- what the parent's calls do --------------------------------------------------------------------------

  lemma ServicePublished(o: Kernel, k: Kernel, v: ParentView)
    requires ParentSide(o, k.parent, v, 5)
    ensures v.alloc ==> var a := SetBootstrap(k, Parent, v.service);
                        a.k == if a.kr == KERN_SUCCESS then k.(parentBootstrap := o.next) else k
  {
  }

  lemma NeverCargo(o: Kernel, k: Kernel, v: ParentView, n: Name)
    requires ParentSide(o, k.parent, v, 7)
    ensures var a := SetBootstrap(k, Parent, n);
            if a.kr == KERN_SUCCESS then a.k.parentBootstrap != o.next + 1 && a.k == k.(parentBootstrap := a.k.parentBootstrap)
            else a.k == k
  {
    if n in k.parent {
      assert ParentEntry(o, n, k.parent[n], v);
    }
  }

  lemma AwaitsService(o: Kernel, k: Kernel, v: ParentView)
    requires ParentSide(o, k.parent, v, 8)
    ensures v.alloc ==> Awaits(k, Parent, v.service) == if o.next in k.queues then Some(o.next) else None
  {
  }

  lemma DeliveryOutcome(o: Kernel, k: Kernel, v: ParentView, n: Name)
    requires ParentSide(o, k.parent, v, 8) && !v.received && !v.used && v.alloc
    requires o.next in k.queues && k.queues[o.next] != [] && k.queues[o.next][0] == DescriptorMessage(o)
    requires DeliveryName(k, Parent, DescriptorMessage(o).cargo, n)
    ensures var d := Receive(k, Parent, o.next, n);
            && d.message == DescriptorMessage(o)
            && d.k == k.(parent := d.k.parent, queues := k.queues[o.next := k.queues[o.next][1..]])
            && ParentSide(o, d.k.parent, v.(delivered := d.name, received := true), 9)
  {
    var alive := o.next + 1 in k.queues;
    ParentReceives(o, k.parent, v, if alive then n else MACH_PORT_DEAD, alive);
    hide ParentSide;
  }

  lemma UseOutcome(o: Kernel, k: Kernel, v: ParentView, pn: nat, sent: bool, cn: nat, id: Word)
    requires ParentSide(o, k.parent, v, pn) && v.received && pn >= 4 && QueueSide(o, k.queues, sent, true, cn)
    ensures var a := Send(k, Parent, v.delivered, MoveSendOnce, id, NoDescriptor);
            if a.kr == MACH_MSG_SUCCESS then
              && v.delivered in k.parent
              && ParentSide(o, a.k.parent, v.(used := true), pn + 1) && QueueSide(o, a.k.queues, sent, true, cn)
              && Waiting(a.k.queues, o.next + 1) == Waiting(k.queues, o.next + 1) + 1
              && a.k == k.(parent := a.k.parent, queues := a.k.queues)
            else a.k == k
  {
    Refused(k, Parent, v.delivered, MoveSendOnce, id, NoDescriptor);
    var a := Send(k, Parent, v.delivered, MoveSendOnce, id, NoDescriptor);
    if a.kr == MACH_MSG_SUCCESS {
      UseCopyin(o, k.parent, v, pn);
      ParentUses(o, k.parent, v, pn);
      hide ParentSide, QueueSide, CopyinHeader, Send, Waiting;
      UseQueued(o, k.queues, sent, true, cn, id);
      Sent(k, Parent, v.delivered, MoveSendOnce, id, NoDescriptor, o.next + 1, k.parent - {v.delivered}, k.parent - {v.delivered}, NoCargo);
    }
  }

  lemma UseCopyin(o: Kernel, sp: Space, v: ParentView, pn: nat)
    requires ParentSide(o, sp, v, pn) && v.received && CopyinHeader(sp, v.delivered, MoveSendOnce).Some?
    ensures v.delivered in sp && CopyinHeader(sp, v.delivered, MoveSendOnce) == Some(Copyin(sp - {v.delivered}, o.next + 1))
  {
  }

  lemma DeliveredApart(o: Kernel, sp: Space, v: ParentView, pn: nat)
    requires ParentSide(o, sp, v, pn) && v.received
    ensures v.delivered != v.service
  {
  }

  lemma ServiceDestroyed(o: Kernel, k: Kernel, v: ParentView, cv: ChildView, cn: nat)
    requires ParentSide(o, k.parent, v, 18) && ChildSide(o, k.child, cv, cn) && v.alloc
    requires QueueSide(o, k.queues, cv.sent, v.received, cn)
    ensures var a := Destroy(k, Parent, v.service);
            && ParentSide(o, a.k.parent, v, 19) && ChildSide(o, a.k.child, cv, cn) && QueueSide(o, a.k.queues, cv.sent, v.received, cn)
            && Waiting(a.k.queues, o.next + 1) <= Waiting(k.queues, o.next + 1)
            && a.k == k.(parent := a.k.parent, child := a.k.child, queues := a.k.queues)
  {
    assert v.service in k.parent && k.parent[v.service].Rights? && k.parent[v.service].port == o.next && k.parent[v.service].receive;
    hide ParentSide, ChildSide, QueueSide, Waiting, Buried, Destroy;
    ParentLess(o, k.parent, v, 18, v.service);
    ParentBuried(o, k.parent - {v.service}, v, 19, {o.next});
    ChildBuried(o, k.child, cv, cn, {o.next});
    QueuesDie(o, k.queues, cv.sent, v.received, cn, {o.next});
    Destroyed(k, Parent, v.service);
  }

  lemma KeepParent(o: Kernel, s: State, ch: Choice)
    requires Ready(o) && Spent(s) && Ports(o, s) && Sides(o, s)
    ensures Keeps(o, s, ParentNext(s, ch))
  {
    hide Ready, Spent, Ports, Sides, Keeps, ParentOpen, ParentCreate, ParentFork, ParentReceive, ParentInspect, ParentUse,
         ParentInspectUsed, ParentWait, ParentReclaim, ParentCleanup;
    match s.ppc
    case PBaseline | PPipe => KeepOpen(o, s, ch);
    case PGetBootstrap => KeepOriginal(o, s, ch);
    case PAllocate => KeepService(o, s, ch);
    case PInsert => KeepInsert(o, s, ch);
    case PPublish => KeepPublish(o, s, ch);
    case PFork => KeepFork(o, s, ch);
    case PRestore => KeepRestore(o, s, ch);
    case PReceive => KeepDelivery(o, s, ch);
    case PType | PRefs => KeepLook(o, s, ch);
    case PFirst | PSecond => KeepUse(o, s, ch);
    case PTypeAfter | PRefsAfter => KeepLookUsed(o, s, ch);
    case PRead | PWait => KeepWait(o, s, ch);
    case PDeallocate => KeepDeallocate(o, s, ch);
    case PDestroy => KeepDestroyService(o, s, ch);
    case PDrop => KeepDropBootstrap(o, s, ch);
    case PBaselineAgain => KeepEnd(o, s, ch);
    case Done => NoKeeping(o, s);
  }

  // ---- whole runs ---------------------------------------------------------------------------------------------

  lemma StepKeeps(o: Kernel, s: State, t: State)
    requires Ready(o) && Spent(s) && Ports(o, s) && Sides(o, s) && Steps(s, t)
    ensures Keeps(o, s, Some(t))
  {
    hide Ready, Spent, Ports, Sides, Keeps, ParentNext, ChildNext, ChildKilled;
    var m :| Next(s, m) == Some(t);
    match m
    case ParentMoves(ch) => KeepParent(o, s, ch);
    case ChildMoves(ch) => KeepChild(o, s, ch);
    case ChildDies => KeepKilled(o, s);
  }

  /** How often in a run the queue of a port grew. */
  ghost function Arrivals(run: seq<State>, port: Port): nat {
    if |run| <= 1 then 0
    else
      var more := Waiting(run[|run| - 1].k.queues, port) > Waiting(run[|run| - 2].k.queues, port);
      Arrivals(run[..|run| - 1], port) + if more then 1 else 0
  }

  lemma KeptFacts(o: Kernel, s: State, t: State)
    requires Keeps(o, s, Some(t))
    ensures Ports(o, t) && Sides(o, t)
    ensures Waiting(t.k.queues, o.next + 1) + Successes(s.p.r) <= Waiting(s.k.queues, o.next + 1) + Successes(t.p.r)
    ensures Successes(s.p.r) <= Successes(t.p.r)
  {
  }

  lemma StartWaiting(s: State)
    requires Init(s)
    ensures Waiting(s.k.queues, s.k.next + 1) == 0
  {
  }

  lemma {:induction false} RunKeeps(run: seq<State>)
    requires Run(run)
    ensures var o, s := run[0].k, Last(run);
            && Ready(o) && Ports(o, s) && Sides(o, s)
            && Waiting(s.k.queues, o.next + 1) <= Successes(s.p.r) <= 1
            && Arrivals(run, o.next + 1) <= Successes(s.p.r)
  {
    hide Init, Steps, Ready, Ports, Sides, Keeps, Spent, Waiting, Successes;
    RunIsSpent(run);
    SpentOnce(Last(run));
    if |run| == 1 {
      Starts(run[0]);
      StartWaiting(run[0]);
    } else {
      var before := run[..|run| - 1];
      RunKeeps(before);
      RunIsSpent(before);
      assert Steps(run[|run| - 2], run[|run| - 1]);
      StepKeeps(run[0].k, Last(before), Last(run));
      KeptFacts(run[0].k, Last(before), Last(run));
    }
  }

  lemma SpentOnce(s: State)
    requires Spent(s)
    ensures Successes(s.p.r) <= 1
  {
  }

  /** In every run there is never more than one send-once right for the cargo port, wherever it is. */
  lemma AtMostOneRight(run: seq<State>)
    requires Run(run)
    ensures var o, s := run[0].k, Last(run);
            exists at :: SendOnceRights(s.k, o.next + 1) <= {at}
  {
    hide Init, Steps, Ready, Waiting, Successes, SendOnceRights;
    RunKeeps(run);
    var o, s := run[0].k, Last(run);
    var pv, cv := ParentsView(s), ChildsView(s);
    hide Run, ParentSide, ChildSide, QueueSide;
    NoMoreThanOne(o, s.k, pv, ParentRank(s.ppc), cv, ChildRank(s.cpc));
  }

  /** In every run the queue of the cargo port grows at most once, and only by a use of the right that succeeded. */
  lemma AtMostOneMessage(run: seq<State>)
    requires Run(run)
    ensures var o, s := run[0].k, Last(run);
            Waiting(s.k.queues, o.next + 1) <= 1 && Arrivals(run, o.next + 1) <= Successes(s.p.r) <= 1
  {
    hide Init, Steps, Ready, Ports, Sides, Waiting, Successes, Arrivals;
    RunKeeps(run);
  }
}
