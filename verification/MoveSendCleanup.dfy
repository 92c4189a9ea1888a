/**
 In every run of the MOVE_SEND probe, however it is disturbed, the parent ends with the namespace and the
 bootstrap port it started with, and says so.
 */
module MoveSendCleanup {
  import opened Baseline
  import opened MachKernel
  import opened Rendezvous
  import opened PipeTransfer
  import opened Holdings
  import opened MoveSendVerdict
  import opened MoveSend
  import opened MoveSendSides

  function ViewOf(s: State): ChildView {
    ChildView(s.c.service, s.c.cargo, s.c.st.krAllocCargo == KERN_SUCCESS)
  }

  /** The special ports, the next port, and which results need which. */
  ghost predicate Ports(o: Kernel, s: State) {
    var pn, cn, r, st, k := ParentRank(s.ppc), ChildRank(s.cpc), s.p.r, s.c.st, s.k;
    && (s.cpc == Unborn <==> !r.forked)
    && (r.forked ==> pn > 6 && r.krAllocService == KERN_SUCCESS && k.childBootstrap == o.next)
    && (r.krPublish == KERN_SUCCESS ==> r.krInsertService == KERN_SUCCESS)
    && (r.krInsertService == KERN_SUCCESS ==> r.krAllocService == KERN_SUCCESS)
    && (pn <= 3 ==> k.next == o.next && r.krAllocService != KERN_SUCCESS)
    && (pn <= 5 ==> r.krPublish != KERN_SUCCESS) && (pn <= 4 ==> r.krInsertService != KERN_SUCCESS)
    && (r.krAllocService == KERN_SUCCESS && cn <= 3 ==> k.next == o.next + 1)
    && (pn == 6 && r.krPublish == KERN_SUCCESS ==> k.parentBootstrap == o.next)
    && (pn <= 9 ==> r.mrReceive != MACH_MSG_SUCCESS)
    && (r.mrReceive != MACH_MSG_SUCCESS <==> r.delivered == MACH_PORT_NULL)
    && (cn <= 3 ==> st.krAllocCargo != KERN_SUCCESS) && (cn <= 4 ==> st.krInsertSend != KERN_SUCCESS)
    && (cn <= 5 ==> st.krTypeBefore != KERN_SUCCESS) && (cn <= 7 ==> st.mrSend != MACH_MSG_SUCCESS)
    && (st.krInsertSend == KERN_SUCCESS ==> st.krAllocCargo == KERN_SUCCESS)
    && (st.krTypeBefore == KERN_SUCCESS ==> st.krInsertSend == KERN_SUCCESS)
    && (st.mrSend == MACH_MSG_SUCCESS ==> st.krTypeBefore == KERN_SUCCESS)
  }

  ghost predicate Sides(o: Kernel, s: State) {
    ChildSide(o, s.k.child, ViewOf(s), ChildRank(s.cpc)) && QueueSide(o, s.k.queues)
  }

  function HoldingOf(o: Kernel, s: State): Holding {
    var pn, p, r := ParentRank(s.ppc), s.p, s.p.r;
    Holding(p.bootstrap, p.service, r.delivered, Rights(o.next + 1, false, 1),
            pn > 2, r.krAllocService == KERN_SUCCESS, r.krInsertService == KERN_SUCCESS, r.mrReceive == MACH_MSG_SUCCESS,
            false, pn > 16, pn > 17, pn > 18)
  }

  /** The parent's namespace is that of its layers, and the rest is as it was. */
  ghost predicate Tidy(o: Kernel, s: State) {
    var pn, r := ParentRank(s.ppc), s.p.r;
    && Owns(o, s.k.parent, HoldingOf(o, s))
    && (pn <= 2 ==> s.k == o)
    && (pn > 2 ==> r.krGetBootstrap == KERN_SUCCESS)
    && (pn > 0 ==> Listing(o.parent, o.listing, r.before))
    && (pn > 19 ==> Listing(o.parent, o.listing, r.after) && r.cleanupOk)
    && s.k.listing == o.listing
    && (r.krPublish != KERN_SUCCESS || pn > 8 ==> s.k.parentBootstrap == o.parentBootstrap)
  }

  ghost predicate Kept(o: Kernel, s: State) {
    Ports(o, s) && Sides(o, s) && Tidy(o, s)
  }

  ghost predicate StaysKept(o: Kernel, n: Option<State>) {
    n.Some? ==> Kept(o, n.value)
  }

  lemma Starts(s: State)
    requires Init(s)
    ensures Kept(s.k, s)
  {
    hide ChildSide, QueueSide, Owns;
    OwnsStart(s.k, HoldingOf(s.k, s));
    ChildStarts(s.k, ViewOf(s));
    QueuesStart(s.k);
  }

  // ---- the child's steps ------------------------------------------------------------------------------------

  lemma KeepFind(o: Kernel, s: State, ch: Choice)
    requires Kept(o, s) && s.cpc == CGetBootstrap
    ensures StaysKept(o, ChildArrive(s, ch))
  {
    hide ChildSide, QueueSide, Owns, Listing, PlusSend, SendName;
    if BootstrapName(s.k, Child, ch.name) {
      ChildFinds(o, s.k.child, ViewOf(s), ch.name, o.next in s.k.queues);
      assert ViewOf(ChildArrive(s, ch).value) == ViewOf(s).(service := ch.name);
    }
  }

  lemma KeepBaseline(o: Kernel, s: State, ch: Choice)
    requires Kept(o, s) && s.cpc == CBaseline
    ensures StaysKept(o, ChildArrive(s, ch))
  {
    hide ChildSide, QueueSide, Owns, Lists, Listing;
    ChildOn(o, s.k.child, ViewOf(s), ChildRank(s.cpc));
  }

  lemma KeepAllocate(o: Kernel, s: State, ch: Choice)
    requires Kept(o, s) && s.cpc == CAllocate
    ensures StaysKept(o, ChildCreate(s, ch))
  {
    hide ChildSide, QueueSide, Owns, Listing, MakeSend;
    if s.c.st.krGetBootstrap != KERN_SUCCESS || ch.fail {
      ChildOn(o, s.k.child, ViewOf(s), 3);
    } else if FreeName(s.k.child, ch.name) {
      ChildAllocates(o, s.k.child, ViewOf(s), ch.name);
      QueueMade(o, s.k.queues, o.next + 1);
      assert ViewOf(ChildCreate(s, ch).value) == ViewOf(s).(cargo := ch.name, alloc := true);
    }
  }

  lemma KeepInsert(o: Kernel, s: State, ch: Choice)
    requires Kept(o, s) && s.cpc == CInsert
    ensures StaysKept(o, ChildCreate(s, ch))
  {
    hide ChildSide, QueueSide, Owns, Listing, MakeSend, Allocate;
    if s.c.st.krAllocCargo == KERN_SUCCESS {
      ChildMakesSend(o, s.k.child, ViewOf(s));
    } else {
      ChildOn(o, s.k.child, ViewOf(s), 4);
    }
  }

  /** A step of the child that only learns something, or writes. */
  lemma KeepLearned(o: Kernel, s: State, t: State)
    requires Kept(o, s) && 4 <= ChildRank(s.cpc) && (t.cpc == s.cpc || ChildRank(t.cpc) == ChildRank(s.cpc) + 1)
    requires t.cpc == s.cpc ==> t.c.st == s.c.st
    requires t.k == s.k && t.p == s.p && t.ppc == s.ppc && ViewOf(t) == ViewOf(s)
    requires t.c.st.krInsertSend == s.c.st.krInsertSend && t.c.st.mrSend == s.c.st.mrSend
    requires s.cpc == CType || t.c.st.krTypeBefore == s.c.st.krTypeBefore
    requires t.c.st.krTypeBefore == s.c.st.krTypeBefore || s.c.st.krInsertSend == KERN_SUCCESS
    ensures Kept(o, t)
  {
    hide ChildSide, QueueSide, Owns, Listing;
    ChildOn(o, s.k.child, ViewOf(s), ChildRank(s.cpc));
  }

  /** A later step of the child that changes the kernel. */
  lemma KeptAfter(o: Kernel, s: State, t: State)
    requires Kept(o, s) && s.cpc != Unborn && ChildRank(t.cpc) >= ChildRank(s.cpc) && t.p == s.p && t.ppc == s.ppc
    requires t.c.st.krAllocCargo == s.c.st.krAllocCargo && t.c.st.krInsertSend == s.c.st.krInsertSend
    requires t.c.st.krTypeBefore == s.c.st.krTypeBefore && t.c.st.mrSend == s.c.st.mrSend
    requires t.k == s.k.(parent := t.k.parent, child := t.k.child, queues := t.k.queues)
    requires ChildSide(o, t.k.child, ViewOf(t), ChildRank(t.cpc)) && QueueSide(o, t.k.queues)
    requires Owns(o, t.k.parent, HoldingOf(o, s))
    ensures Kept(o, t)
  {
    hide ChildSide, QueueSide, Owns, Listing;
  }

  lemma KeptParts(o: Kernel, s: State)
    requires Kept(o, s)
    ensures ChildSide(o, s.k.child, ViewOf(s), ChildRank(s.cpc)) && QueueSide(o, s.k.queues) && Owns(o, s.k.parent, HoldingOf(o, s))
  {
  }

  lemma KeepInspect(o: Kernel, s: State, ch: Choice)
    requires Kept(o, s) && (s.cpc == CType || s.cpc == CRefs)
    ensures StaysKept(o, ChildInspect(s, ch))
  {
    hide Kept, Type, SendRefs;
    KeepLearned(o, s, ChildInspect(s, ch).value);
  }

  lemma KeepSend(o: Kernel, s: State, ch: Choice)
    requires Kept(o, s) && s.cpc == CSend
    ensures StaysKept(o, ChildSend(s, ch))
  {
    hide ChildSide, QueueSide, Owns, Listing, Send;
    ChildOn(o, s.k.child, ViewOf(s), 7);
    if s.c.st.krTypeBefore == KERN_SUCCESS {
      SendOutcome(o, s.k, ViewOf(s));
    }
  }

  /** Sending the descriptor: either it goes to the service port with a right for the cargo port, or nothing changes. */
  lemma SendOutcome(o: Kernel, k: Kernel, v: ChildView)
    requires ChildSide(o, k.child, v, 7) && QueueSide(o, k.queues) && v.alloc
    ensures var l := Send(k, Child, v.service, CopySend, DESCRIPTOR_ID, MoveSend(v.cargo)).k;
            ChildSide(o, l.child, v, 8) && QueueSide(o, l.queues) && l == k.(child := l.child, queues := l.queues)
  {
    Refused(k, Child, v.service, CopySend, DESCRIPTOR_ID, MoveSend(v.cargo));
    var a := Send(k, Child, v.service, CopySend, DESCRIPTOR_ID, MoveSend(v.cargo));
    if a.kr == MACH_MSG_SUCCESS {
      DescriptorCopyin(o, k.child, v);
      ChildSends(o, k.child, v);
      hide ChildSide, QueueSide, CopyinHeader, CopyinDescriptor, Send, LessSend;
      Sent(k, Child, v.service, CopySend, DESCRIPTOR_ID, MoveSend(v.cargo), o.next, k.child, LessSend(k.child, v.cargo),
           CarriedSend(o.next + 1));
      QueueMore(o, k.queues, o.next, Message(DESCRIPTOR_ID, CarriedSend(o.next + 1)));
    } else {
      hide QueueSide, Send;
      ChildOn(o, k.child, v, 7);
    }
  }

  lemma DescriptorCopyin(o: Kernel, sp: Space, v: ChildView)
    requires ChildSide(o, sp, v, 7) && v.alloc
    requires CopyinHeader(sp, v.service, CopySend).Some?
    requires CopyinDescriptor(CopyinHeader(sp, v.service, CopySend).value.space, MoveSend(v.cargo)).Some?
    ensures v.cargo in sp && sp[v.cargo].Rights? && sp[v.cargo].sends > 0
    ensures CopyinHeader(sp, v.service, CopySend) == Some(Copyin(sp, o.next))
    ensures CopyinDescriptor(sp, MoveSend(v.cargo)) == Some(Copyin(LessSend(sp, v.cargo), CarriedSend(o.next + 1)))
  {
  }

  lemma KeepInspectSent(o: Kernel, s: State, ch: Choice)
    requires Kept(o, s) && (s.cpc == CTypeSent || s.cpc == CRefsSent)
    ensures StaysKept(o, ChildInspectSent(s, ch))
  {
    hide Kept, Type, SendRefs;
    KeepLearned(o, s, ChildInspectSent(s, ch).value);
  }

  lemma KeepReceive(o: Kernel, s: State, ch: Choice)
    requires Kept(o, s) && s.cpc == CReceive
    ensures StaysKept(o, ChildReceive(s, ch))
  {
    hide ChildSide, QueueSide, Owns, Listing, Receive, Awaits, DeliveryName;
    ChildOn(o, s.k.child, ViewOf(s), 10);
    if s.c.st.mrSend == MACH_MSG_SUCCESS {
      AwaitsCargo(o, s.k, ViewOf(s));
      if o.next + 1 in s.k.queues && s.k.queues[o.next + 1] != [] {
        CargoFirst(o, s.k.queues);
        TakenQueue(o, s.k, ch.name);
        QueueLess(o, s.k.queues, o.next + 1);
      }
    }
  }

  lemma AwaitsCargo(o: Kernel, k: Kernel, v: ChildView)
    requires ChildSide(o, k.child, v, 10) && v.alloc
    ensures Awaits(k, Child, v.cargo) == if o.next + 1 in k.queues then Some(o.next + 1) else None
  {
  }

  lemma TakenQueue(o: Kernel, k: Kernel, n: Name)
    requires o.next + 1 in k.queues && k.queues[o.next + 1] != [] && k.queues[o.next + 1][0].cargo == NoCargo
    ensures Receive(k, Child, o.next + 1, n).k == k.(queues := k.queues[o.next + 1 := k.queues[o.next + 1][1..]])
  {
  }

  lemma KeepInspectVerified(o: Kernel, s: State, ch: Choice)
    requires Kept(o, s) && (s.cpc == CTypeVerified || s.cpc == CRefsVerified)
    ensures StaysKept(o, ChildInspectVerified(s, ch))
  {
    hide Kept, Type, SendRefs;
    KeepLearned(o, s, ChildInspectVerified(s, ch).value);
  }

  lemma KeepDestroy(o: Kernel, s: State, ch: Choice)
    requires Ready(o) && Kept(o, s) && s.cpc == CDestroy
    ensures StaysKept(o, ChildCleanup(s, ch))
  {
    hide Ready, ChildSide, QueueSide, Owns, Listing, Destroy;
    if s.c.st.krAllocCargo == KERN_SUCCESS {
      CargoDestroyed(o, s.k, ViewOf(s), HoldingOf(o, s));
    } else {
      ChildOn(o, s.k.child, ViewOf(s), 13);
    }
  }

  lemma CargoDestroyed(o: Kernel, k: Kernel, v: ChildView, h: Holding)
    requires Ready(o) && ChildSide(o, k.child, v, 13) && QueueSide(o, k.queues) && Owns(o, k.parent, h) && v.alloc
    ensures var l := Destroy(k, Child, v.cargo).k;
            && ChildSide(o, l.child, v, 14) && QueueSide(o, l.queues) && Owns(o, l.parent, h)
            && l == k.(parent := l.parent, child := l.child, queues := l.queues)
  {
    hide Ready, ChildSide, QueueSide, Owns, Buried, Destroy;
    ChildDestroys(o, k.child, v);
    OwnsBuried(o, k.parent, h, {o.next + 1});
    QueuesDie(o, k.queues, {o.next + 1});
    Destroyed(k, Child, v.cargo);
  }

  lemma KeepBaselineAgain(o: Kernel, s: State, ch: Choice)
    requires Kept(o, s) && s.cpc == CBaselineAgain
    ensures StaysKept(o, ChildCleanup(s, ch))
  {
    hide Kept, Lists, Matches, ToInt, Destroy;
    var n := ChildCleanup(s, ch);
    if n.Some? {
      KeepLearned(o, s, n.value);
    }
  }

  lemma KeepDrop(o: Kernel, s: State, ch: Choice)
    requires Kept(o, s) && s.cpc == CDrop
    ensures StaysKept(o, ChildCleanup(s, ch))
  {
    hide Kept, ChildSide, QueueSide, Owns, Deallocate, Destroy, ExitCode;
    KeptParts(o, s);
    ChildOn(o, s.k.child, ViewOf(s), 15);
    ChildDrops(o, s.k.child, ViewOf(s), s.c.service);
    KeptAfter(o, s, ChildCleanup(s, ch).value);
  }

  lemma KeepWrite(o: Kernel, s: State, ch: Choice)
    requires Kept(o, s) && s.cpc == CWrite
    ensures StaysKept(o, ChildWrite(s, ch))
  {
    hide Kept, Record;
    var n := ChildWrite(s, ch);
    if n.Some? {
      KeepLearned(o, s, n.value);
    }
  }

  lemma KeepLeave(o: Kernel, s: State, ch: Choice)
    requires Ready(o) && Kept(o, s) && (s.cpc == CClose || s.cpc == CExit)
    ensures StaysKept(o, ChildLeave(s, ch))
  {
    hide Ready, Kept, ChildSide, QueueSide, Owns, Exit;
    KeptParts(o, s);
    if s.cpc == CClose {
      KeepLearned(o, s, ChildLeave(s, ch).value);
    } else {
      ExitKeeps(o, s.k, ViewOf(s), 18, HoldingOf(o, s));
      KeptAfter(o, s, ChildLeave(s, ch).value);
    }
  }

  lemma KeepKilled(o: Kernel, s: State)
    requires Ready(o) && Kept(o, s)
    ensures StaysKept(o, ChildKilled(s))
  {
    hide Ready, Kept, ChildSide, QueueSide, Owns, Exit;
    if s.cpc != Unborn && s.cpc != Gone {
      KeptParts(o, s);
      ExitKeeps(o, s.k, ViewOf(s), ChildRank(s.cpc), HoldingOf(o, s));
      KeptAfter(o, s, ChildKilled(s).value);
    }
  }

  lemma ExitKeeps(o: Kernel, k: Kernel, v: ChildView, cn: nat, h: Holding)
    requires Ready(o) && ChildSide(o, k.child, v, cn) && QueueSide(o, k.queues) && Owns(o, k.parent, h)
    ensures var l := Exit(k, Child);
            && ChildSide(o, l.child, v, 19) && QueueSide(o, l.queues) && Owns(o, l.parent, h)
            && l == k.(parent := l.parent, child := l.child, queues := l.queues)
  {
    hide Ready, ChildSide, QueueSide, Owns, Buried, ReceiveRights;
    var gone := ReceiveRights(k.child);
    ChildReceiveRights(o, k.child, v, cn);
    OwnsBuried(o, k.parent, h, gone);
    QueuesDie(o, k.queues, gone);
    ChildGone(o, v, 19);
    BuriedNothing(gone);
  }

  lemma NothingKept(o: Kernel)
    ensures StaysKept(o, None)
  {
  }

  lemma KeepChild(o: Kernel, s: State, ch: Choice)
    requires Ready(o) && Kept(o, s)
    ensures StaysKept(o, ChildNext(s, ch))
  {
    hide Ready, Kept, StaysKept, ChildArrive, ChildCreate, ChildInspect, ChildSend, ChildInspectSent, ChildReceive,
         ChildInspectVerified, ChildCleanup, ChildWrite, ChildLeave;
    match s.cpc
    case CGetBootstrap => KeepFind(o, s, ch);
    case CBaseline => KeepBaseline(o, s, ch);
    case CAllocate => KeepAllocate(o, s, ch);
    case CInsert => KeepInsert(o, s, ch);
    case CType | CRefs => KeepInspect(o, s, ch);
    case CSend => KeepSend(o, s, ch);
    case CTypeSent | CRefsSent => KeepInspectSent(o, s, ch);
    case CReceive => KeepReceive(o, s, ch);
    case CTypeVerified | CRefsVerified => KeepInspectVerified(o, s, ch);
    case CDestroy => KeepDestroy(o, s, ch);
    case CBaselineAgain => KeepBaselineAgain(o, s, ch);
    case CDrop => KeepDrop(o, s, ch);
    case CWrite => KeepWrite(o, s, ch);
    case CClose | CExit => KeepLeave(o, s, ch);
    case Unborn | Gone => NothingKept(o);
  }

  // ---- the parent's steps -----------------------------------------------------------------------------------

  lemma KeepOpen(o: Kernel, s: State, ch: Choice)
    requires Kept(o, s) && (s.ppc == PBaseline || s.ppc == PPipe)
    ensures StaysKept(o, ParentOpen(s, ch))
  {
    hide ChildSide, QueueSide, Owns, Listing;
  }

  lemma KeepOriginal(o: Kernel, s: State, ch: Choice)
    requires Ready(o) && Kept(o, s) && s.ppc == PGetBootstrap
    ensures StaysKept(o, ParentCreate(s, ch))
  {
    assert o.parentBootstrap in o.queues;
    assert s.k.parent == o.parent;
    hide Ready, ChildSide, QueueSide, Owns, Listing, PlusSend, SendName;
    if BootstrapName(s.k, Parent, ch.name) {
      OwnsBootstrap(o, HoldingOf(o, s), ch.name);
      assert HoldingOf(o, ParentCreate(s, ch).value) == HoldingOf(o, s).(bootstrap := ch.name, got := true);
    }
  }

  lemma KeepService(o: Kernel, s: State, ch: Choice)
    requires Kept(o, s) && s.ppc == PAllocate
    ensures StaysKept(o, ParentCreate(s, ch))
  {
    hide ChildSide, QueueSide, Owns, Listing;
    if !ch.fail && FreeName(s.k.parent, ch.name) {
      OwnsAllocation(o, s.k.parent, HoldingOf(o, s), ch.name);
      QueueMade(o, s.k.queues, o.next);
      assert HoldingOf(o, ParentCreate(s, ch).value) == HoldingOf(o, s).(service := ch.name, alloc := true);
    }
  }

  lemma KeepServiceSend(o: Kernel, s: State, ch: Choice)
    requires Kept(o, s) && s.ppc == PInsert
    ensures StaysKept(o, ParentCreate(s, ch))
  {
    hide ChildSide, QueueSide, Owns, Listing, MakeSend, Allocate, GetBootstrap;
    if s.p.r.krAllocService == KERN_SUCCESS {
      OwnsSend(o, s.k.parent, HoldingOf(o, s));
      assert HoldingOf(o, ParentCreate(s, ch).value) == HoldingOf(o, s).(made := true);
    }
  }

  lemma SetKeeps(k: Kernel, n: Name)
    ensures var a := SetBootstrap(k, Parent, n);
            a.k == k.(parentBootstrap := a.k.parentBootstrap) && (a.kr != KERN_SUCCESS ==> a.k == k)
  {
  }

  lemma Published(o: Kernel, k: Kernel, h: Holding)
    requires Owns(o, k.parent, h) && h.alloc && h.made && !h.received && !h.destroyed && !h.dropped
    ensures SetBootstrap(k, Parent, h.service) == KernelAnswer(k.(parentBootstrap := o.next), KERN_SUCCESS)
  {
    OwnsService(o, k.parent, h);
    hide Owns;
  }

  lemma KeepPublish(o: Kernel, s: State, ch: Choice)
    requires Kept(o, s) && s.ppc == PPublish
    ensures StaysKept(o, ParentFork(s, ch))
  {
    hide ChildSide, QueueSide, Owns, Listing, SetBootstrap;
    if s.p.r.krInsertService == KERN_SUCCESS {
      Published(o, s.k, HoldingOf(o, s));
    }
  }

  lemma KeepFork(o: Kernel, s: State, ch: Choice)
    requires Kept(o, s) && s.ppc == PFork
    ensures StaysKept(o, ParentFork(s, ch))
  {
    hide ChildSide, QueueSide, Owns, Listing, SetBootstrap;
    if s.cpc == Unborn {
      ChildOn(o, s.k.child, ViewOf(s), 0);
    }
  }

  lemma KeepRestore(o: Kernel, s: State, ch: Choice)
    requires Ready(o) && Kept(o, s) && (s.ppc == PCloseWrite || s.ppc == PRestore)
    ensures StaysKept(o, ParentRestore(s, ch))
  {
    hide Ready, ChildSide, QueueSide, Owns, Listing, SetBootstrap;
    OwnsRestore(o, s.k, HoldingOf(o, s));
  }

  lemma KeepDelivery(o: Kernel, s: State, ch: Choice)
    requires Ready(o) && Kept(o, s) && s.ppc == PReceive
    ensures StaysKept(o, ParentReceive(s, ch))
  {
    hide Ready, Kept, ChildSide, QueueSide, Owns, Receive, Awaits, DeliveryName;
    KeptParts(o, s);
    BeforeReceipt(o, s);
    var n := ParentReceive(s, ch);
    if s.p.r.forked {
      AwaitsService(o, s.k, HoldingOf(o, s));
      if o.next in s.k.queues && s.k.queues[o.next] != [] {
        ServiceFirst(o, s.k.queues);
        QueueLess(o, s.k.queues, o.next);
        if DeliveryName(s.k, Parent, CarriedSend(o.next + 1), ch.name) {
          DeliveryHeld(o, s.k, HoldingOf(o, s), ch.name);
          ReceivedKept(o, s, n.value);
        }
      } else if n.Some? {
        NotReceivedKept(o, s, n.value);
      }
    } else {
      NotReceivedKept(o, s, n.value);
    }
  }

  lemma BeforeReceipt(o: Kernel, s: State)
    requires Kept(o, s) && s.ppc == PReceive
    ensures s.p.r.mrReceive != MACH_MSG_SUCCESS && (s.p.r.forked ==> s.p.r.krAllocService == KERN_SUCCESS)
  {
  }

  lemma ReceivedKept(o: Kernel, s: State, t: State)
    requires Kept(o, s) && s.ppc == PReceive && t.ppc == PType && s.p.r.forked
    requires t.k == s.k.(parent := t.k.parent, queues := t.k.queues) && t.cpc == s.cpc && t.c == s.c
    requires t.p == s.p.(r := s.p.r.(mrReceive := MACH_MSG_SUCCESS, delivered := t.p.r.delivered, descriptors := t.p.r.descriptors))
    requires t.p.r.delivered != MACH_PORT_NULL && QueueSide(o, t.k.queues)
    requires Owns(o, t.k.parent, HoldingOf(o, s).(delivered := t.p.r.delivered, received := true))
    ensures Kept(o, t)
  {
    hide ChildSide, QueueSide, Owns, Listing;
    assert HoldingOf(o, t) == HoldingOf(o, s).(delivered := t.p.r.delivered, received := true);
  }

  lemma NotReceivedKept(o: Kernel, s: State, t: State)
    requires Kept(o, s) && s.ppc == PReceive && t.ppc == PType && t.k == s.k && t.cpc == s.cpc && t.c == s.c
    requires t.p == s.p.(r := s.p.r.(mrReceive := t.p.r.mrReceive)) && t.p.r.mrReceive != MACH_MSG_SUCCESS
    ensures Kept(o, t)
  {
    hide ChildSide, QueueSide, Owns, Listing;
    assert HoldingOf(o, t) == HoldingOf(o, s);
  }

  lemma AwaitsService(o: Kernel, k: Kernel, h: Holding)
    requires Owns(o, k.parent, h) && h.alloc && !h.received && !h.destroyed && !h.dropped
    ensures Awaits(k, Parent, h.service) == if o.next in k.queues then Some(o.next) else None
  {
    OwnsService(o, k.parent, h);
    hide Owns;
  }

  lemma DeliveryHeld(o: Kernel, k: Kernel, h: Holding, n: Name)
    requires Ready(o) && Owns(o, k.parent, h) && h.alloc && !h.received && !h.reclaimed && !h.used
    requires h.right == Rights(o.next + 1, false, 1)
    requires o.next in k.queues && k.queues[o.next] != [] && k.queues[o.next][0].cargo == CarriedSend(o.next + 1)
    requires DeliveryName(k, Parent, CarriedSend(o.next + 1), n)
    ensures var d := Receive(k, Parent, o.next, n);
            && d.k == k.(parent := d.k.parent, queues := k.queues[o.next := k.queues[o.next][1..]]) && d.name != MACH_PORT_NULL
            && Owns(o, d.k.parent, h.(delivered := d.name, received := true))
  {
    NoneBefore(o, k.parent, h);
    hide Ready, Owns, HasRights;
    var alive := o.next + 1 in k.queues;
    OwnsDelivery(o, k.parent, h, if alive then n else MACH_PORT_DEAD, alive);
  }

  /** A step of the parent between the receipt and the clean-up that only learns something, or reads. */
  lemma KeepNoted(o: Kernel, s: State, t: State)
    requires Kept(o, s) && 10 <= ParentRank(s.ppc) <= 15 && (t.ppc == s.ppc || ParentRank(t.ppc) == ParentRank(s.ppc) + 1)
    requires t.k == s.k && t.cpc == s.cpc && t.c == s.c && HoldingOf(o, t) == HoldingOf(o, s).(reclaimed := ParentRank(t.ppc) > 16)
    requires t.p.r.forked == s.p.r.forked && t.p.r.before == s.p.r.before
    requires t.p.r.krGetBootstrap == s.p.r.krGetBootstrap && t.p.r.krPublish == s.p.r.krPublish
    requires t.p.r.krInsertService == s.p.r.krInsertService && t.p.r.krAllocService == s.p.r.krAllocService
    requires t.p.r.mrReceive == s.p.r.mrReceive && t.p.r.delivered == s.p.r.delivered
    ensures Kept(o, t)
  {
    hide ChildSide, QueueSide, Owns, Listing;
  }

  lemma KeepLook(o: Kernel, s: State, ch: Choice)
    requires Kept(o, s) && (s.ppc == PType || s.ppc == PRefs)
    ensures StaysKept(o, ParentInspect(s, ch))
  {
    hide Kept, Type, SendRefs;
    var t := ParentInspect(s, ch).value;
    assert t.p.r == s.p.r.(krType := t.p.r.krType, typeOf := t.p.r.typeOf, krRefs := t.p.r.krRefs, refs := t.p.r.refs);
    KeepNoted(o, s, t);
  }

  lemma KeepVerify(o: Kernel, s: State, ch: Choice)
    requires Ready(o) && Kept(o, s) && s.ppc == PVerify
    ensures StaysKept(o, ParentVerify(s, ch))
  {
    hide Ready, ChildSide, QueueSide, Owns, Listing, Send;
    if s.p.r.mrReceive == MACH_MSG_SUCCESS {
      VerifyOutcome(o, s.k, HoldingOf(o, s));
    }
  }

  /** The verification message goes to the cargo port, if anywhere, and costs no right. */
  lemma VerifyOutcome(o: Kernel, k: Kernel, h: Holding)
    requires Ready(o) && Owns(o, k.parent, h) && QueueSide(o, k.queues) && h.received && !h.reclaimed && !h.used
    requires h.right == Rights(o.next + 1, false, 1)
    ensures var l := Send(k, Parent, h.delivered, CopySend, VERIFY_ID, NoDescriptor).k;
            QueueSide(o, l.queues) && l == k.(queues := l.queues)
  {
    Refused(k, Parent, h.delivered, CopySend, VERIFY_ID, NoDescriptor);
    if Send(k, Parent, h.delivered, CopySend, VERIFY_ID, NoDescriptor).kr == MACH_MSG_SUCCESS {
      hide Ready, Owns, QueueSide, CopyinHeader, Send;
      DeliveredCopyin(o, k.parent, h);
      Sent(k, Parent, h.delivered, CopySend, VERIFY_ID, NoDescriptor, o.next + 1, k.parent, k.parent, NoCargo);
      QueueMore(o, k.queues, o.next + 1, Message(VERIFY_ID, NoCargo));
    }
  }

  lemma DeliveredCopyin(o: Kernel, sp: Space, h: Holding)
    requires Ready(o) && Owns(o, sp, h) && h.received && !h.reclaimed && !h.used && h.right == Rights(o.next + 1, false, 1)
    requires CopyinHeader(sp, h.delivered, CopySend).Some?
    ensures CopyinHeader(sp, h.delivered, CopySend) == Some(Copyin(sp, o.next + 1))
  {
    OwnFacts(o, h);
    hide Ready, Own;
  }

  lemma KeepRead(o: Kernel, s: State, ch: Choice)
    requires Kept(o, s) && s.ppc == PRead
    ensures StaysKept(o, ParentRead(s, ch))
  {
    hide Kept, OfRecord, Stored;
    var n := ParentRead(s, ch);
    if n.Some? {
      KeepNoted(o, s, n.value);
    }
  }

  lemma KeepWait(o: Kernel, s: State, ch: Choice)
    requires Kept(o, s) && (s.ppc == PCloseRead || s.ppc == PWait)
    ensures StaysKept(o, ParentWait(s, ch))
  {
    hide Kept;
    var n := ParentWait(s, ch);
    if n.Some? {
      KeepNoted(o, s, n.value);
    }
  }

  lemma KeepDeallocate(o: Kernel, s: State, ch: Choice)
    requires Ready(o) && Kept(o, s) && s.ppc == PDeallocate
    ensures StaysKept(o, ParentReclaim(s, ch))
  {
    hide Ready, ChildSide, QueueSide, Owns, Listing, Deallocate, Destroy;
    if s.p.r.mrReceive == MACH_MSG_SUCCESS {
      OwnsReclaim(o, s.k.parent, HoldingOf(o, s));
    } else {
      OwnsNoReclaim(o, s.k.parent, HoldingOf(o, s));
    }
    assert HoldingOf(o, ParentReclaim(s, ch).value) == HoldingOf(o, s).(reclaimed := true);
  }

  lemma KeepDestroyService(o: Kernel, s: State, ch: Choice)
    requires Ready(o) && Kept(o, s) && s.ppc == PDestroy
    ensures StaysKept(o, ParentReclaim(s, ch))
  {
    hide Ready, ChildSide, QueueSide, Owns, Listing, Deallocate, Destroy;
    if s.p.r.krAllocService == KERN_SUCCESS {
      ServiceGone(o, s.k, ViewOf(s), ChildRank(s.cpc), HoldingOf(o, s));
    } else {
      OwnsNoDestruction(o, s.k.parent, HoldingOf(o, s));
    }
    assert HoldingOf(o, ParentReclaim(s, ch).value) == HoldingOf(o, s).(destroyed := true);
  }

  lemma ServiceGone(o: Kernel, k: Kernel, v: ChildView, cn: nat, h: Holding)
    requires Ready(o) && Owns(o, k.parent, h) && ChildSide(o, k.child, v, cn) && QueueSide(o, k.queues)
    requires h.reclaimed && !h.destroyed && h.alloc
    ensures var l := Destroy(k, Parent, h.service).k;
            && ChildSide(o, l.child, v, cn) && QueueSide(o, l.queues) && Owns(o, l.parent, h.(destroyed := true))
            && l == k.(parent := l.parent, child := l.child, queues := l.queues)
  {
    hide Ready, Owns, ChildSide, QueueSide, Buried, Destroy;
    OwnsDestruction(o, k.parent, h);
    ChildBuried(o, k.child, v, cn, {o.next});
    QueuesDie(o, k.queues, {o.next});
    Destroyed(k, Parent, h.service);
  }

  lemma KeepDropBootstrap(o: Kernel, s: State, ch: Choice)
    requires Ready(o) && Kept(o, s) && s.ppc == PDrop
    ensures StaysKept(o, ParentCleanup(s, ch))
  {
    hide Ready, ChildSide, QueueSide, Owns, Listing, Deallocate;
    OwnsDrop(o, s.k.parent, HoldingOf(o, s));
    assert HoldingOf(o, ParentCleanup(s, ch).value) == HoldingOf(o, s).(dropped := true);
  }

  lemma AllGivenBack(o: Kernel, s: State)
    requires Tidy(o, s) && ParentRank(s.ppc) > 18
    ensures s.k.parent == o.parent && s.k.parentBootstrap == o.parentBootstrap
  {
  }

  lemma KeepEnd(o: Kernel, s: State, ch: Choice)
    requires Kept(o, s) && s.ppc == PBaselineAgain
    ensures StaysKept(o, ParentCleanup(s, ch))
  {
    AllGivenBack(o, s);
    hide ChildSide, QueueSide, Owns, Listing, Matches;
    if Lists(s.k, Parent, ch.listing) {
      ListingsMatch(o.parent, o.listing, s.p.r.before, ch.listing);
    }
  }

  lemma KeepParent(o: Kernel, s: State, ch: Choice)
    requires Ready(o) && Kept(o, s)
    ensures StaysKept(o, ParentNext(s, ch))
  {
    hide Ready, Kept, StaysKept, ParentOpen, ParentCreate, ParentFork, ParentRestore, ParentReceive, ParentInspect,
         ParentVerify, ParentRead, ParentWait, ParentReclaim, ParentCleanup;
    match s.ppc
    case PBaseline | PPipe => KeepOpen(o, s, ch);
    case PGetBootstrap => KeepOriginal(o, s, ch);
    case PAllocate => KeepService(o, s, ch);
    case PInsert => KeepServiceSend(o, s, ch);
    case PPublish => KeepPublish(o, s, ch);
    case PFork => KeepFork(o, s, ch);
    case PCloseWrite | PRestore => KeepRestore(o, s, ch);
    case PReceive => KeepDelivery(o, s, ch);
    case PType | PRefs => KeepLook(o, s, ch);
    case PVerify => KeepVerify(o, s, ch);
    case PRead => KeepRead(o, s, ch);
    case PCloseRead | PWait => KeepWait(o, s, ch);
    case PDeallocate => KeepDeallocate(o, s, ch);
    case PDestroy => KeepDestroyService(o, s, ch);
    case PDrop => KeepDropBootstrap(o, s, ch);
    case PBaselineAgain => KeepEnd(o, s, ch);
    case Done => NothingKept(o);
  }

  // ---- whole runs -----------------------------------------------------------------------------------------------

  lemma StepKept(o: Kernel, s: State, t: State)
    requires Ready(o) && Kept(o, s) && Steps(s, t)
    ensures Kept(o, t)
  {
    hide Ready, Kept, ParentNext, ChildNext, ChildKilled;
    var m :| Next(s, m) == Some(t);
    match m
    case ParentMoves(ch) => KeepParent(o, s, ch);
    case ChildMoves(ch) => KeepChild(o, s, ch);
    case ChildDies => KeepKilled(o, s);
  }

  lemma {:induction false} RunKept(run: seq<State>)
    requires Run(run)
    ensures Ready(run[0].k) && Kept(run[0].k, Last(run))
  {
    hide Steps, Ready, Kept;
    if |run| == 1 {
      Starts(run[0]);
    } else {
      hide Init;
      RunKept(run[..|run| - 1]);
      assert Steps(run[|run| - 2], run[|run| - 1]);
      StepKept(run[0].k, run[|run| - 2], Last(run));
    }
  }

  /**
   Whatever call times out or fails and whenever the child dies: a run that comes to its end leaves the
   parent's namespace and bootstrap port as they were, and its report says so.
   */
  lemma NoLeakEver(run: seq<State>)
    requires Run(run) && Last(run).ppc == Done
    ensures var o, s := run[0].k, Last(run);
            s.k.parent == o.parent && s.k.parentBootstrap == o.parentBootstrap && s.p.r.cleanupOk
  {
    hide Init, Steps, Ready, Ports, Sides, Owns, Listing;
    RunKept(run);
    AllGivenBack(run[0].k, Last(run));
  }
}
