/**
 In every run of the send-once probe, however it is disturbed, the parent ends with the namespace and the
 bootstrap port it started with, and says so.
 */
module SendOnceCleanup {
  import opened Baseline
  import opened MachKernel
  import opened Rendezvous
  import opened Holdings
  import opened SendOnceVerdict
  import opened SendOnceRun
  import opened SendOnceKernel
  import opened SendOnceReuse
  import opened SendOnceSides
  import opened SendOnceEveryRun

  function HoldingOf(o: Kernel, s: State): Holding {
    var pn, p, r := ParentRank(s.ppc), s.p, s.p.r;
    Holding(p.bootstrap, p.service, r.delivered, SendOnce(o.next + 1),
            pn > 2, r.krAllocService == KERN_SUCCESS, r.krInsertService == KERN_SUCCESS, r.mrReceive == MACH_MSG_SUCCESS,
            r.mrFirst == MACH_MSG_SUCCESS || r.mrSecond == MACH_MSG_SUCCESS, pn > 17, pn > 18, pn > 19)
  }

  /** The parent's namespace is that of its layers, and the rest is as it was. */
  ghost predicate Tidy(o: Kernel, s: State) {
    var pn, r := ParentRank(s.ppc), s.p.r;
    && Owns(o, s.k.parent, HoldingOf(o, s))
    && (pn <= 2 ==> s.k == o)
    && (pn > 2 ==> r.krGetBootstrap == KERN_SUCCESS)
    && (pn > 0 ==> Listing(o.parent, o.listing, r.before))
    && (pn > 20 ==> Listing(o.parent, o.listing, r.after) && r.cleanupOk)
    && s.k.listing == o.listing
    && (r.krPublish != KERN_SUCCESS || pn > 7 ==> s.k.parentBootstrap == o.parentBootstrap)
    && (r.mrReceive == MACH_MSG_SUCCESS ==> r.delivered != MACH_PORT_NULL)
    && (pn <= 11 ==> r.mrFirst != MACH_MSG_SUCCESS) && (pn <= 14 ==> r.mrSecond != MACH_MSG_SUCCESS)
  }

  ghost predicate StaysTidy(o: Kernel, n: Option<State>) {
    n.Some? ==> Tidy(o, n.value)
  }

  lemma StartsTidy(s: State)
    requires Init(s)
    ensures Tidy(s.k, s)
  {
    OwnsStart(s.k, HoldingOf(s.k, s));
  }

  // ---- the child ------------------------------------------------------------------------------------------------

  lemma ChildTidy(o: Kernel, s: State, n: Option<State>)
    requires Ready(o) && Tidy(o, s) && Ports(o, s) && Sides(o, s) && ParentKept(s, n)
    requires n.Some? ==> s.cpc != Unborn
    ensures StaysTidy(o, n)
  {
    hide Ready, ParentSide, ChildSide, QueueSide, Owns, Buries, Listing;
    if n.Some? && n.value.k.parent != s.k.parent {
      ChildReceiveRights(o, s.k.child, ChildsView(s), ChildRank(s.cpc));
      BuriesHoldings(o, s.k, n.value.k, HoldingOf(o, s));
    }
  }

  lemma BuriesHoldings(o: Kernel, k: Kernel, l: Kernel, h: Holding)
    requires Ready(o) && Owns(o, k.parent, h) && Buries(k, l) && ReceiveRights(k.child) <= {o.next + 1}
    ensures Owns(o, l.parent, h)
  {
    hide Owns;
    var ports :| ports <= ReceiveRights(k.child) && l.parent == Buried(k.parent, ports);
    OwnsBuried(o, k.parent, h, ports);
  }

  // ---- the parent -----------------------------------------------------------------------------------------------

  lemma TidyOpen(o: Kernel, s: State, ch: Choice)
    requires Tidy(o, s) && (s.ppc == PBaseline || s.ppc == PPipe)
    ensures StaysTidy(o, ParentOpen(s, ch))
  {
    hide Owns, Listing;
  }

  lemma TidyOriginal(o: Kernel, s: State, ch: Choice)
    requires Ready(o) && Ports(o, s) && Tidy(o, s) && s.ppc == PGetBootstrap
    ensures StaysTidy(o, ParentCreate(s, ch))
  {
    assert Ready(o) ==> o.parentBootstrap in o.queues;
    assert s.k.parent == o.parent by {
      hide Ready, Ports;
    }
    hide Ready, Owns, Listing, PlusSend, SendName;
    if BootstrapName(s.k, Parent, ch.name) {
      OwnsBootstrap(o, HoldingOf(o, s), ch.name);
      assert HoldingOf(o, ParentCreate(s, ch).value) == HoldingOf(o, s).(bootstrap := ch.name, got := true);
    }
  }

  lemma TidyService(o: Kernel, s: State, ch: Choice)
    requires Ports(o, s) && Tidy(o, s) && s.ppc == PAllocate
    ensures StaysTidy(o, ParentCreate(s, ch))
  {
    hide Owns, Listing;
    if !ch.fail && FreeName(s.k.parent, ch.name) {
      OwnsAllocation(o, s.k.parent, HoldingOf(o, s), ch.name);
      assert HoldingOf(o, ParentCreate(s, ch).value) == HoldingOf(o, s).(service := ch.name, alloc := true);
    }
  }

  lemma TidyInsert(o: Kernel, s: State, ch: Choice)
    requires Ports(o, s) && Tidy(o, s) && s.ppc == PInsert
    ensures StaysTidy(o, ParentCreate(s, ch))
  {
    hide Owns, Listing, MakeSend;
    if s.p.r.krAllocService == KERN_SUCCESS {
      OwnsSend(o, s.k.parent, HoldingOf(o, s));
      assert HoldingOf(o, ParentCreate(s, ch).value) == HoldingOf(o, s).(made := true);
    }
  }

  lemma SetKeeps(k: Kernel, n: Name)
    ensures var a := SetBootstrap(k, Parent, n);
            && a.k.parent == k.parent && a.k.listing == k.listing
            && (a.kr != KERN_SUCCESS ==> a.k == k)
  {
  }

  lemma TidyPublish(o: Kernel, s: State, ch: Choice)
    requires Ports(o, s) && Tidy(o, s) && s.ppc == PPublish
    ensures StaysTidy(o, ParentFork(s, ch))
  {
    hide Owns, Listing, SetBootstrap;
    SetKeeps(s.k, s.p.service);
  }

  lemma TidyFork(o: Kernel, s: State, ch: Choice)
    requires Ports(o, s) && Tidy(o, s) && s.ppc == PFork
    ensures StaysTidy(o, ParentFork(s, ch))
  {
    hide Owns, Listing, SetBootstrap;
  }

  lemma TidyRestore(o: Kernel, s: State, ch: Choice)
    requires Ready(o) && Ports(o, s) && Tidy(o, s) && s.ppc == PRestore
    ensures StaysTidy(o, ParentFork(s, ch))
  {
    hide Ready, Owns, Listing, SetBootstrap;
    OwnsRestore(o, s.k, HoldingOf(o, s));
  }

  lemma TidyDelivery(o: Kernel, s: State, ch: Choice)
    requires Ready(o) && Ports(o, s) && Sides(o, s) && Tidy(o, s) && s.ppc == PReceive
    ensures StaysTidy(o, ParentReceive(s, ch))
  {
    hide Ready, ParentSide, ChildSide, QueueSide, Owns, Listing, Receive, Awaits, DeliveryName;
    AwaitsService(o, s.k, ParentsView(s));
    if s.p.r.forked && o.next in s.k.queues && s.k.queues[o.next] != [] {
      DescriptorReceived(o, s.k.queues, ChildsView(s).sent, ParentsView(s).received, ChildRank(s.cpc));
      if DeliveryName(s.k, Parent, s.k.queues[o.next][0].cargo, ch.name) {
        DeliveryHeld(o, s.k, HoldingOf(o, s), ch.name);
        assert HoldingOf(o, ParentReceive(s, ch).value)
            == HoldingOf(o, s).(delivered := Receive(s.k, Parent, o.next, ch.name).name, received := true);
      }
    }
  }

  lemma DeliveryHeld(o: Kernel, k: Kernel, h: Holding, n: Name)
    requires Ready(o) && Owns(o, k.parent, h) && h.alloc && !h.received && !h.reclaimed && !h.used && h.right == SendOnce(o.next + 1)
    requires o.next in k.queues && k.queues[o.next] != [] && k.queues[o.next][0] == DescriptorMessage(o)
    requires DeliveryName(k, Parent, DescriptorMessage(o).cargo, n)
    ensures var d := Receive(k, Parent, o.next, n);
            && d.k.listing == k.listing && d.k.parentBootstrap == k.parentBootstrap && d.name != MACH_PORT_NULL
            && Owns(o, d.k.parent, h.(delivered := d.name, received := true))
  {
    hide Ready, Owns;
    var alive := o.next + 1 in k.queues;
    OwnsDelivery(o, k.parent, h, if alive then n else MACH_PORT_DEAD, alive);
  }

  /** A step of the parent between the receipt and the clean-up that only learns something. */
  lemma TidyLearned(o: Kernel, s: State, t: State)
    requires Tidy(o, s) && 9 <= ParentRank(s.ppc) <= 16 && ParentRank(t.ppc) == ParentRank(s.ppc) + 1 && t.k == s.k
    requires HoldingOf(o, t) == HoldingOf(o, s).(reclaimed := ParentRank(t.ppc) > 17)
    requires t.p.r.mrFirst == s.p.r.mrFirst && t.p.r.mrSecond == s.p.r.mrSecond
    requires t.p.r.krGetBootstrap == s.p.r.krGetBootstrap && t.p.r.krPublish == s.p.r.krPublish && t.p.r.before == s.p.r.before
    ensures Tidy(o, t)
  {
    hide Owns, Listing;
  }

  lemma TidyLook(o: Kernel, s: State, ch: Choice)
    requires Tidy(o, s) && (s.ppc == PType || s.ppc == PRefs)
    ensures StaysTidy(o, ParentInspect(s, ch))
  {
    hide Tidy, Type, SendOnceRefs;
    var t := ParentInspect(s, ch).value;
    assert t.p.r == s.p.r.(krType := t.p.r.krType, typeOf := t.p.r.typeOf, krRefs := t.p.r.krRefs, refs := t.p.r.refs);
    TidyLearned(o, s, t);
  }

  lemma TidyUse(o: Kernel, s: State, ch: Choice)
    requires Ready(o) && Tidy(o, s) && (s.ppc == PFirst || s.ppc == PSecond)
    ensures StaysTidy(o, ParentUse(s, ch))
  {
    hide Ready, Owns, Listing, Send, HasSendOnce;
    if Uses(s.p.r) {
      UseHeld(o, s.k, HoldingOf(o, s), if s.ppc == PFirst then VERIFY_ID else SECOND_ID);
    }
  }

  lemma UseHeld(o: Kernel, k: Kernel, h: Holding, id: Word)
    requires Ready(o) && Owns(o, k.parent, h) && h.received && !h.reclaimed
    ensures var a := Send(k, Parent, h.delivered, MoveSendOnce, id, NoDescriptor);
            && a.k.listing == k.listing && a.k.parentBootstrap == k.parentBootstrap
            && Owns(o, a.k.parent, if a.kr == MACH_MSG_SUCCESS then h.(used := true) else h)
  {
    Refused(k, Parent, h.delivered, MoveSendOnce, id, NoDescriptor);
    if Send(k, Parent, h.delivered, MoveSendOnce, id, NoDescriptor).kr == MACH_MSG_SUCCESS {
      UseTakes(k, h.delivered, id);
      DeadIsNothing(o, k.parent, h);
      hide Ready, Owns, Send;
      OwnsUse(o, k.parent, h);
    }
  }

  lemma UseTakes(k: Kernel, n: Name, id: Word)
    ensures var a := Send(k, Parent, n, MoveSendOnce, id, NoDescriptor);
            a.kr == MACH_MSG_SUCCESS ==> n in k.parent && a.k == k.(parent := k.parent - {n}, queues := a.k.queues)
  {
  }

  lemma DeadIsNothing(o: Kernel, sp: Space, h: Holding)
    requires Ready(o) && Owns(o, sp, h) && h.received && !h.reclaimed
    ensures h.delivered == MACH_PORT_DEAD ==> h.delivered !in sp
  {
    OwnFacts(o, h);
    hide Ready, Own;
  }

  lemma TidyLookUsed(o: Kernel, s: State, ch: Choice)
    requires Tidy(o, s) && (s.ppc == PTypeAfter || s.ppc == PRefsAfter)
    ensures StaysTidy(o, ParentInspectUsed(s, ch))
  {
    hide Tidy, Type, SendOnceRefs, HasSendOnce;
    var t := ParentInspectUsed(s, ch).value;
    assert t.p.r == s.p.r.(krTypeAfter := t.p.r.krTypeAfter, typeAfter := t.p.r.typeAfter,
                           krRefsAfter := t.p.r.krRefsAfter, refsAfter := t.p.r.refsAfter);
    TidyLearned(o, s, t);
  }

  lemma TidyWait(o: Kernel, s: State, ch: Choice)
    requires Tidy(o, s) && (s.ppc == PRead || s.ppc == PWait)
    ensures StaysTidy(o, ParentWait(s, ch))
  {
    hide Tidy;
    var n := ParentWait(s, ch);
    if n.Some? {
      TidyLearned(o, s, n.value);
    }
  }

  lemma TidyDeallocate(o: Kernel, s: State, ch: Choice)
    requires Ready(o) && Ports(o, s) && Tidy(o, s) && s.ppc == PDeallocate
    ensures StaysTidy(o, ParentReclaim(s, ch))
  {
    hide Ready, Owns, Listing, Deallocate;
    if s.p.r.mrReceive == MACH_MSG_SUCCESS {
      OwnsReclaim(o, s.k.parent, HoldingOf(o, s));
    } else {
      OwnsNoReclaim(o, s.k.parent, HoldingOf(o, s));
    }
    assert HoldingOf(o, ParentReclaim(s, ch).value) == HoldingOf(o, s).(reclaimed := true);
  }

  lemma TidyDestroy(o: Kernel, s: State, ch: Choice)
    requires Ready(o) && Tidy(o, s) && s.ppc == PDestroy
    ensures StaysTidy(o, ParentReclaim(s, ch))
  {
    hide Ready, Owns, Listing, Destroy;
    if s.p.r.krAllocService == KERN_SUCCESS {
      ServiceGone(o, s.k, HoldingOf(o, s));
    } else {
      OwnsNoDestruction(o, s.k.parent, HoldingOf(o, s));
    }
    assert HoldingOf(o, ParentReclaim(s, ch).value) == HoldingOf(o, s).(destroyed := true);
  }

  lemma ServiceGone(o: Kernel, k: Kernel, h: Holding)
    requires Ready(o) && Owns(o, k.parent, h) && h.reclaimed && !h.destroyed && h.alloc
    ensures var l := Destroy(k, Parent, h.service).k;
            && l.listing == k.listing && l.parentBootstrap == k.parentBootstrap && Owns(o, l.parent, h.(destroyed := true))
  {
    OwnsDestruction(o, k.parent, h);
    hide Ready, Owns, Buried;
    Destroyed(k, Parent, h.service);
  }

  lemma TidyDrop(o: Kernel, s: State, ch: Choice)
    requires Ready(o) && Tidy(o, s) && s.ppc == PDrop
    ensures StaysTidy(o, ParentCleanup(s, ch))
  {
    hide Ready, Owns, Listing, Deallocate;
    OwnsDrop(o, s.k.parent, HoldingOf(o, s));
    assert HoldingOf(o, ParentCleanup(s, ch).value) == HoldingOf(o, s).(dropped := true);
  }

  lemma AllGivenBack(o: Kernel, s: State)
    requires Tidy(o, s) && ParentRank(s.ppc) > 19
    ensures s.k.parent == o.parent && s.k.parentBootstrap == o.parentBootstrap
  {
  }

  lemma TidyEnd(o: Kernel, s: State, ch: Choice)
    requires Tidy(o, s) && s.ppc == PBaselineAgain
    ensures StaysTidy(o, ParentCleanup(s, ch))
  {
    AllGivenBack(o, s);
    hide Owns, Listing, Matches;
    if Lists(s.k, Parent, ch.listing) {
      ListingsMatch(o.parent, o.listing, s.p.r.before, ch.listing);
    }
  }

  lemma NothingTidy(o: Kernel)
    ensures StaysTidy(o, None)
  {
  }

  lemma ParentTidy(o: Kernel, s: State, ch: Choice)
    requires Ready(o) && Ports(o, s) && Sides(o, s) && Tidy(o, s)
    ensures StaysTidy(o, ParentNext(s, ch))
  {
    hide Ready, Ports, Sides, Tidy, StaysTidy, ParentOpen, ParentCreate, ParentFork, ParentReceive, ParentInspect, ParentUse,
         ParentInspectUsed, ParentWait, ParentReclaim, ParentCleanup;
    match s.ppc
    case PBaseline | PPipe => TidyOpen(o, s, ch);
    case PGetBootstrap => TidyOriginal(o, s, ch);
    case PAllocate => TidyService(o, s, ch);
    case PInsert => TidyInsert(o, s, ch);
    case PPublish => TidyPublish(o, s, ch);
    case PFork => TidyFork(o, s, ch);
    case PRestore => TidyRestore(o, s, ch);
    case PReceive => TidyDelivery(o, s, ch);
    case PType | PRefs => TidyLook(o, s, ch);
    case PFirst | PSecond => TidyUse(o, s, ch);
    case PTypeAfter | PRefsAfter => TidyLookUsed(o, s, ch);
    case PRead | PWait => TidyWait(o, s, ch);
    case PDeallocate => TidyDeallocate(o, s, ch);
    case PDestroy => TidyDestroy(o, s, ch);
    case PDrop => TidyDrop(o, s, ch);
    case PBaselineAgain => TidyEnd(o, s, ch);
    case Done => NothingTidy(o);
  }

  // ---- whole runs -----------------------------------------------------------------------------------------------

  lemma StepTidy(o: Kernel, s: State, t: State)
    requires Ready(o) && Ports(o, s) && Sides(o, s) && Tidy(o, s) && Steps(s, t)
    ensures Tidy(o, t)
  {
    hide Ready, Ports, Sides, Tidy, ParentKept, ParentNext, ChildNext, ChildKilled;
    var m :| Next(s, m) == Some(t);
    match m {
      case ParentMoves(ch) => ParentTidy(o, s, ch);
      case ChildMoves(ch) =>
        Born(s, ch);
        KeptChild(s, ch);
        ChildTidy(o, s, Some(t));
      case ChildDies =>
        Born(s, Choice(MACH_PORT_NULL, NoSnapshot(), false));
        KeptKilled(s);
        ChildTidy(o, s, Some(t));
    }
  }

  lemma Born(s: State, ch: Choice)
    ensures s.cpc == Unborn ==> ChildNext(s, ch) == None && ChildKilled(s) == None
  {
  }

  lemma {:induction false} RunTidy(run: seq<State>)
    requires Run(run)
    ensures Tidy(run[0].k, Last(run))
  {
    hide Init, Steps, Ready, Ports, Sides, Tidy, Waiting, Successes, Arrivals;
    if |run| == 1 {
      StartsTidy(run[0]);
    } else {
      var before := run[..|run| - 1];
      RunKeeps(before);
      RunTidy(before);
      assert Steps(run[|run| - 2], run[|run| - 1]);
      StepTidy(run[0].k, Last(before), Last(run));
    }
  }

  /**
   Whatever call times out or fails and whenever the child dies: a run that comes to its end leaves the
   parent's namespace and bootstrap port as they were, and its report says so.
   */
  lemma NoLeakEver(run: seq<State>)
    requires Run(run) && Last(run).ppc == Done
    ensures var o, s := run[0].k, Last(run);
            s.k.parent == o.parent && s.k.parentBootstrap == o.parentBootstrap && s.p.r.cleanupOk
  {
    hide Init, Steps, Owns, Listing;
    RunTidy(run);
    AllGivenBack(run[0].k, Last(run));
  }
}
