/**
 Every run of the send-once probe, however it is disturbed, comes to its end, and until then one of
 the programs can take its next step by itself.
 */
module SendOnceProgress {
  import opened Baseline
  import opened MachKernel
  import opened KernelSizes
  import opened KernelChoices
  import opened SendOnceVerdict
  import opened SendOnceRun
  import opened SendOnceLiveness

  /** There is a child exactly after a fork that worked, and the namespaces never fill up. */
  ghost predicate Control(s: State) {
    && (s.cpc == Unborn <==> !s.p.r.forked)
    && (s.p.r.forked ==> ParentRank(s.ppc) > 6)
    && |s.k.parent| < 0x7fff_ff00 + ParentRank(s.ppc)
    && |s.k.child| < 0x7fff_ff00 + ChildRank(s.cpc)
  }

  ghost predicate Advances(s: State, n: Option<State>) {
    n.Some? ==> Control(n.value) && Ranks(n.value) > Ranks(s)
  }

  lemma InitControl(s: State)
    requires Init(s)
    ensures Control(s) && Ranks(s) == 0
  {
  }

  /** A step of the child. */
  ghost predicate ChildAlone(s: State, n: Option<State>) {
    n.Some? ==>
      && n.value.ppc == s.ppc && n.value.p == s.p
      && ChildRank(n.value.cpc) == ChildRank(s.cpc) + 1
      && Grown(s.k, Child, n.value.k)
  }

  lemma ChildAloneAdvances(s: State, n: Option<State>)
    requires Control(s) && ChildAlone(s, n) && s.cpc != Unborn
    ensures Advances(s, n)
  {
  }

  lemma ArriveAlone(s: State, ch: Choice)
    requires s.cpc == CGetBootstrap || s.cpc == CBaseline
    ensures ChildAlone(s, ChildArrive(s, ch))
  {
    hide GetBootstrap, BootstrapName, Lists, Grown;
    SameSize(s.k, Child);
    GetBootstrapSize(s.k, Child, ch.name);
  }

  lemma AllocateAlone(s: State, ch: Choice)
    requires s.cpc == CAllocate || s.cpc == CCargoType
    ensures ChildAlone(s, ChildCreate(s, ch))
  {
    hide Allocate, Type, ExtractOnce, Grown;
    SameSize(s.k, Child);
    AllocateSize(s.k, Child, ch.name);
  }

  lemma ExtractAlone(s: State, ch: Choice)
    requires s.cpc == CExtract
    ensures ChildAlone(s, ChildCreate(s, ch))
  {
    hide Allocate, Type, ExtractOnce, Grown;
    SameSize(s.k, Child);
    ExtractSize(s.k, s.c.cargo, ch.name);
  }

  lemma InspectAlone(s: State, ch: Choice)
    requires s.cpc == CType || s.cpc == CRefs
    ensures ChildAlone(s, ChildInspect(s, ch))
  {
    hide Type, SendOnceRefs, Grown;
    SameSize(s.k, Child);
  }

  lemma SendAlone(s: State, ch: Choice)
    requires s.cpc == CSend
    ensures ChildAlone(s, ChildSend(s, ch))
  {
    hide Send, Grown;
    SameSize(s.k, Child);
    SendSize(s.k, Child, s.c.service, CopySend, DESCRIPTOR_ID, MoveOnce(s.c.once));
  }

  lemma InspectSentAlone(s: State, ch: Choice)
    requires s.cpc == CTypeSent || s.cpc == CRefsSent
    ensures ChildAlone(s, ChildInspectSent(s, ch))
  {
    hide Type, SendOnceRefs, Grown;
    SameSize(s.k, Child);
  }

  lemma ReceiveAlone(s: State, ch: Choice)
    requires s.cpc == CReceive
    ensures ChildAlone(s, ChildReceive(s, ch))
  {
    hide Receive, Awaits, DeliveryName, Grown;
    SameSize(s.k, Child);
    var port := Awaits(s.k, Child, s.c.cargo);
    AwaitsQueue(s.k, Child, s.c.cargo);
    if port.Some? && s.k.queues[port.value] != [] {
      ReceiveSize(s.k, Child, port.value, ch.name);
    }
  }

  lemma ReceiveAgainAlone(s: State, ch: Choice)
    requires s.cpc == CReceiveAgain
    ensures ChildAlone(s, ChildReceiveAgain(s, ch))
  {
    hide Receive, Awaits, DeliveryName, Grown;
    SameSize(s.k, Child);
    var port := Awaits(s.k, Child, s.c.cargo);
    AwaitsQueue(s.k, Child, s.c.cargo);
    if port.Some? && s.k.queues[port.value] != [] {
      ReceiveSize(s.k, Child, port.value, ch.name);
    }
  }

  lemma LookAlone(s: State, ch: Choice)
    requires s.cpc == CCargoTypeAfter
    ensures ChildAlone(s, ChildRelease(s, ch))
  {
    hide Type, Deallocate, Destroy, Grown;
    SameSize(s.k, Child);
  }

  lemma DropOnceAlone(s: State, ch: Choice)
    requires s.cpc == CDropOnce
    ensures ChildAlone(s, ChildRelease(s, ch))
  {
    hide Type, Deallocate, Destroy, Grown;
    SameSize(s.k, Child);
    DeallocateSize(s.k, Child, s.c.once);
  }

  lemma DestroyAlone(s: State, ch: Choice)
    requires s.cpc == CDestroy
    ensures ChildAlone(s, ChildRelease(s, ch))
  {
    hide Type, Deallocate, Destroy, Grown;
    SameSize(s.k, Child);
    DestroySize(s.k, Child, s.c.cargo);
  }

  lemma BaselineAgainAlone(s: State, ch: Choice)
    requires s.cpc == CBaselineAgain
    ensures ChildAlone(s, ChildCleanup(s, ch))
  {
    hide Lists, Matches, ToInt, Deallocate, ExitCode, Grown;
    SameSize(s.k, Child);
  }

  lemma DropAlone(s: State, ch: Choice)
    requires s.cpc == CDrop
    ensures ChildAlone(s, ChildCleanup(s, ch))
  {
    hide Lists, Matches, ToInt, Deallocate, ExitCode, Grown;
    SameSize(s.k, Child);
    DeallocateSize(s.k, Child, s.c.service);
  }

  lemma LeaveAlone(s: State, ch: Choice)
    requires s.cpc == CReport || s.cpc == CExit
    ensures ChildAlone(s, ChildLeave(s, ch))
  {
    hide Exit, Grown;
    SameSize(s.k, Child);
    ExitSize(s.k);
  }

  lemma ExtractSize(k: Kernel, n: Name, made: Name)
    ensures Grown(k, Child, k.(child := ExtractOnce(k.child, n, made).space))
  {
    AtMost(k.child, made, ExtractOnce(k.child, n, made).space);
  }

  lemma ChildAdvances(s: State, ch: Choice)
    requires Control(s)
    ensures Advances(s, ChildNext(s, ch))
  {
    hide Control, ChildAlone, Advances, ChildArrive, ChildCreate, ChildInspect, ChildSend, ChildInspectSent, ChildReceive,
         ChildReceiveAgain, ChildRelease, ChildCleanup, ChildLeave;
    match s.cpc {
      case CGetBootstrap | CBaseline => ArriveAlone(s, ch);
      case CAllocate | CCargoType => AllocateAlone(s, ch);
      case CExtract => ExtractAlone(s, ch);
      case CType | CRefs => InspectAlone(s, ch);
      case CSend => SendAlone(s, ch);
      case CTypeSent | CRefsSent => InspectSentAlone(s, ch);
      case CReceive => ReceiveAlone(s, ch);
      case CReceiveAgain => ReceiveAgainAlone(s, ch);
      case CCargoTypeAfter => LookAlone(s, ch);
      case CDropOnce => DropOnceAlone(s, ch);
      case CDestroy => DestroyAlone(s, ch);
      case CBaselineAgain => BaselineAgainAlone(s, ch);
      case CDrop => DropAlone(s, ch);
      case CReport | CExit => LeaveAlone(s, ch);
      case Unborn | Gone => NothingAdvances(s);
    }
    if s.cpc != Unborn && s.cpc != Gone {
      ChildAloneAdvances(s, ChildNext(s, ch));
    }
  }

  lemma NothingAdvances(s: State)
    ensures Advances(s, None)
  {
  }

  lemma KilledAdvances(s: State)
    requires Control(s)
    ensures Advances(s, ChildKilled(s))
  {
    hide Exit;
    ExitSize(s.k);
  }

  // ---- the parent's steps ------------------------------------------------------------------------------

  /** A step of the parent that forks nothing. */
  ghost predicate ParentAlone(s: State, n: Option<State>) {
    n.Some? ==>
      && n.value.cpc == s.cpc && n.value.c == s.c
      && ParentRank(n.value.ppc) == ParentRank(s.ppc) + 1
      && n.value.p.r.forked == s.p.r.forked
      && Grown(s.k, Parent, n.value.k)
  }

  lemma ParentAloneAdvances(s: State, n: Option<State>)
    requires Control(s) && ParentAlone(s, n)
    ensures Advances(s, n)
  {
  }

  lemma OpenAlone(s: State, ch: Choice)
    requires s.ppc == PBaseline || s.ppc == PPipe
    ensures ParentAlone(s, ParentOpen(s, ch))
  {
    hide Lists, Grown;
    SameSize(s.k, Parent);
  }

  lemma OriginalAlone(s: State, ch: Choice)
    requires s.ppc == PGetBootstrap
    ensures ParentAlone(s, ParentCreate(s, ch))
  {
    hide GetBootstrap, Allocate, MakeSend, BootstrapName, Grown;
    SameSize(s.k, Parent);
    GetBootstrapSize(s.k, Parent, ch.name);
  }

  lemma ServiceAlone(s: State, ch: Choice)
    requires s.ppc == PAllocate || s.ppc == PInsert
    ensures ParentAlone(s, ParentCreate(s, ch))
  {
    hide GetBootstrap, Allocate, MakeSend, BootstrapName, Grown;
    SameSize(s.k, Parent);
    if s.ppc == PAllocate {
      AllocateSize(s.k, Parent, ch.name);
    } else {
      MakeSendSize(s.k, Parent, s.p.service);
    }
  }

  lemma PublishAlone(s: State, ch: Choice)
    requires s.ppc == PPublish || s.ppc == PRestore
    ensures ParentAlone(s, ParentFork(s, ch))
  {
    hide SetBootstrap, Grown;
    SameSize(s.k, Parent);
    SetBootstrapSize(s.k, Parent, s.p.service);
    SetBootstrapSize(s.k, Parent, s.p.bootstrap);
  }

  lemma ForkAdvances(s: State, ch: Choice)
    requires Control(s) && s.ppc == PFork
    ensures Advances(s, ParentFork(s, ch))
  {
    hide SetBootstrap;
  }

  lemma SetBootstrapSize(k: Kernel, t: Task, n: Name)
    ensures Grown(k, t, SetBootstrap(k, t, n).k)
  {
  }

  lemma DeliveryAlone(s: State, ch: Choice)
    requires s.ppc == PReceive
    ensures ParentAlone(s, ParentReceive(s, ch))
  {
    hide Receive, Awaits, DeliveryName, Grown;
    SameSize(s.k, Parent);
    var port := Awaits(s.k, Parent, s.p.service);
    AwaitsQueue(s.k, Parent, s.p.service);
    if port.Some? && s.k.queues[port.value] != [] {
      ReceiveSize(s.k, Parent, port.value, ch.name);
    }
  }

  lemma ParentInspectAlone(s: State, ch: Choice)
    requires s.ppc == PType || s.ppc == PRefs
    ensures ParentAlone(s, ParentInspect(s, ch))
  {
    hide Type, SendOnceRefs, Grown;
    SameSize(s.k, Parent);
  }

  lemma UseAlone(s: State, ch: Choice)
    requires s.ppc == PFirst || s.ppc == PSecond
    ensures ParentAlone(s, ParentUse(s, ch))
  {
    hide Send, HasSendOnce, Grown;
    SameSize(s.k, Parent);
    SendSize(s.k, Parent, s.p.r.delivered, MoveSendOnce, VERIFY_ID, NoDescriptor);
    SendSize(s.k, Parent, s.p.r.delivered, MoveSendOnce, SECOND_ID, NoDescriptor);
  }

  lemma InspectUsedAlone(s: State, ch: Choice)
    requires s.ppc == PTypeAfter || s.ppc == PRefsAfter
    ensures ParentAlone(s, ParentInspectUsed(s, ch))
  {
    hide Type, SendOnceRefs, HasSendOnce, Grown;
    SameSize(s.k, Parent);
  }

  lemma WaitAlone(s: State, ch: Choice)
    requires s.ppc == PRead || s.ppc == PWait
    ensures ParentAlone(s, ParentWait(s, ch))
  {
    hide HasSendOnce, Grown;
    SameSize(s.k, Parent);
  }

  lemma ReclaimAlone(s: State, ch: Choice)
    requires s.ppc == PDeallocate
    ensures ParentAlone(s, ParentReclaim(s, ch))
  {
    hide Deallocate, Destroy, Grown;
    SameSize(s.k, Parent);
    DeallocateSize(s.k, Parent, s.p.r.delivered);
  }

  lemma DestroyServiceAlone(s: State, ch: Choice)
    requires s.ppc == PDestroy
    ensures ParentAlone(s, ParentReclaim(s, ch))
  {
    hide Deallocate, Destroy, Grown;
    SameSize(s.k, Parent);
    DestroySize(s.k, Parent, s.p.service);
  }

  lemma DropBootstrapAlone(s: State, ch: Choice)
    requires s.ppc == PDrop
    ensures ParentAlone(s, ParentCleanup(s, ch))
  {
    hide Deallocate, Lists, Matches, Grown;
    SameSize(s.k, Parent);
    DeallocateSize(s.k, Parent, s.p.bootstrap);
  }

  lemma EndAlone(s: State, ch: Choice)
    requires s.ppc == PBaselineAgain
    ensures ParentAlone(s, ParentCleanup(s, ch))
  {
    hide Deallocate, Lists, Matches, Grown;
    SameSize(s.k, Parent);
  }

  lemma ParentAdvances(s: State, ch: Choice)
    requires Control(s)
    ensures Advances(s, ParentNext(s, ch))
  {
    hide Control, ParentAlone, Advances, ParentOpen, ParentCreate, ParentFork, ParentReceive, ParentInspect, ParentUse,
         ParentInspectUsed, ParentWait, ParentReclaim, ParentCleanup;
    match s.ppc {
      case PBaseline | PPipe => OpenAlone(s, ch);
      case PGetBootstrap => OriginalAlone(s, ch);
      case PAllocate | PInsert => ServiceAlone(s, ch);
      case PPublish | PRestore => PublishAlone(s, ch);
      case PFork => ForkAdvances(s, ch);
      case PReceive => DeliveryAlone(s, ch);
      case PType | PRefs => ParentInspectAlone(s, ch);
      case PFirst | PSecond => UseAlone(s, ch);
      case PTypeAfter | PRefsAfter => InspectUsedAlone(s, ch);
      case PRead | PWait => WaitAlone(s, ch);
      case PDeallocate => ReclaimAlone(s, ch);
      case PDestroy => DestroyServiceAlone(s, ch);
      case PDrop => DropBootstrapAlone(s, ch);
      case PBaselineAgain => EndAlone(s, ch);
      case Done => NothingAdvances(s);
    }
    if s.ppc != PFork && s.ppc != Done {
      ParentAloneAdvances(s, ParentNext(s, ch));
    }
  }

  lemma StepsAdvance(s: State, t: State)
    requires Control(s) && Steps(s, t)
    ensures Control(t) && Ranks(t) > Ranks(s)
  {
    hide Control, ParentNext, ChildNext, ChildKilled, Ranks;
    var m :| Next(s, m) == Some(t);
    match m
    case ParentMoves(ch) => ParentAdvances(s, ch);
    case ChildMoves(ch) => ChildAdvances(s, ch);
    case ChildDies => KilledAdvances(s);
  }

  // ---- who can go -------------------------------------------------------------------------------------------

  /** In a call without a timeout that cannot return now. */
  predicate ParentBlocked(s: State) {
    s.p.r.forked && s.cpc != Gone && ((s.ppc == PRead && s.report == None) || s.ppc == PWait)
  }

  predicate Alive(s: State) {
    s.cpc != Unborn && s.cpc != Gone
  }

  lemma ChildReceives(s: State) returns (ch: Choice)
    requires |s.k.child| < 0x8000_0000 && (s.cpc == CReceive || s.cpc == CReceiveAgain)
    ensures (ch.fail ==> s.cpc == CReceive) && ChildNext(s, ch).Some?
  {
    hide Receive, Awaits, DeliveryName;
    ch := Choice(0, NoSnapshot(), s.cpc == CReceive);
    var port := Awaits(s.k, Child, s.c.cargo);
    AwaitsQueue(s.k, Child, s.c.cargo);
    if port.Some? && s.k.queues[port.value] != [] {
      var n := DeliveryNameExists(s.k, Child, s.k.queues[port.value][0].cargo);
      ch := Naming(n);
    }
  }

  lemma ChildCanMove(s: State) returns (ch: Choice)
    requires Control(s) && Alive(s)
    ensures (ch.fail ==> s.cpc == CReceive) && ChildNext(s, ch).Some?
  {
    hide ChildNext;
    ch := Naming(0);
    match s.cpc
    case CGetBootstrap | CBaseline | CAllocate | CCargoType | CExtract => ch := NamesChosen(s);
    case CReceive | CReceiveAgain => ch := ChildReceives(s);
    case CBaselineAgain | CDrop => ch := CleanupMoves(s);
    case _ => InnerMoves(s, ch);
  }

  lemma ParentReceivesAny(s: State) returns (ch: Choice)
    requires |s.k.parent| < 0x8000_0000 && s.ppc == PReceive
    ensures ParentNext(s, ch).Some?
  {
    hide Receive, Awaits, DeliveryName;
    ch := Choice(0, NoSnapshot(), true);
    var port := Awaits(s.k, Parent, s.p.service);
    AwaitsQueue(s.k, Parent, s.p.service);
    if port.Some? && s.k.queues[port.value] != [] {
      var n := DeliveryNameExists(s.k, Parent, s.k.queues[port.value][0].cargo);
      ch := Naming(n);
    }
  }

  lemma ParentWaited(s: State, ch: Choice)
    requires (s.ppc == PRead || s.ppc == PWait) && !ParentBlocked(s) && !ch.fail
    ensures ParentNext(s, ch).Some?
  {
  }

  lemma ParentCanMove(s: State) returns (ch: Choice)
    requires Control(s) && s.ppc != Done && !ParentBlocked(s)
    ensures (ch.fail ==> s.ppc == PReceive) && ParentNext(s, ch).Some?
  {
    hide ParentNext, ParentBlocked;
    ch := Naming(0);
    match s.ppc
    case PBaseline | PPipe | PGetBootstrap | PAllocate | PInsert => ch := ParentNamesChosen(s);
    case PPublish | PFork | PRestore => ParentForks(s, ch);
    case PReceive => ch := ParentReceivesAny(s);
    case PRead | PWait => ParentWaited(s, ch);
    case PDrop | PBaselineAgain => ch := ParentEnds(s);
    case _ => ParentInner(s, ch);
  }

  lemma NothingWhenBlocked(s: State, ch: Choice)
    ensures s.ppc == Done || (ParentBlocked(s) && !ch.fail) ==> ParentNext(s, ch).None?
    ensures !Alive(s) ==> ChildNext(s, ch).None?
  {
  }

  /** The parent can take its next step by itself exactly if it is not done and not blocked. */
  lemma ParentGoesUnlessBlocked(s: State)
    requires Control(s)
    ensures ParentCanGo(s) <==> s.ppc != Done && !ParentBlocked(s)
  {
    hide Control, ParentNext;
    if s.ppc != Done && !ParentBlocked(s) {
      var ch := ParentCanMove(s);
      assert ParentGoes(s, ParentNext(s, ch).value);
    } else if ParentCanGo(s) {
      var t :| ParentGoes(s, t);
      var ch: Choice :| (ch.fail ==> s.ppc == PReceive) && ParentNext(s, ch) == Some(t);
      NothingWhenBlocked(s, ch);
    }
  }

  /** The child is never blocked. */
  lemma ChildAlwaysGoes(s: State)
    requires Control(s)
    ensures ChildCanGo(s) <==> Alive(s)
  {
    hide Control, ChildNext;
    if Alive(s) {
      var ch := ChildCanMove(s);
      assert ChildGoes(s, ChildNext(s, ch).value);
    } else if ChildCanGo(s) {
      var t :| ChildGoes(s, t);
      var ch: Choice :| (ch.fail ==> s.cpc == CReceive) && ChildNext(s, ch) == Some(t);
      NothingWhenBlocked(s, ch);
    }
  }

  lemma SomeoneGoes(s: State)
    requires Control(s)
    ensures ParentCanGo(s) || ChildCanGo(s) <==> !Finished(s)
  {
    ParentGoesUnlessBlocked(s);
    ChildAlwaysGoes(s);
    hide ParentCanGo, ChildCanGo;
  }

  // ---- whole runs ---------------------------------------------------------------------------------------------

  lemma {:induction false} RunAdvances(run: seq<State>)
    requires Run(run)
    ensures Control(Last(run)) && |run| - 1 <= Ranks(Last(run))
  {
    hide Control, Init, Steps, Ranks;
    if |run| == 1 {
      InitControl(run[0]);
    } else {
      assert Steps(run[|run| - 2], run[|run| - 1]);
      RunAdvances(run[..|run| - 1]);
      StepsAdvance(run[|run| - 2], run[|run| - 1]);
    }
  }

  /** No run, disturbed or not, makes more than 41 steps. */
  lemma EveryRunEnds(run: seq<State>)
    requires Run(run)
    ensures |run| - 1 <= 41
  {
    hide Control, Init, Steps, Ranks;
    RunAdvances(run);
    RanksBound(Last(run));
  }

  /**
   In every run, however disturbed so far, a program can take its next step by itself, with nobody
   killed and nothing interrupted, exactly as long as the run is not finished.
   */
  lemma Progress(run: seq<State>)
    requires Run(run)
    ensures ParentCanGo(Last(run)) || ChildCanGo(Last(run)) <==> !Finished(Last(run))
  {
    hide Init, Steps, Control, Ranks, ParentCanGo, ChildCanGo;
    RunAdvances(run);
    SomeoneGoes(Last(run));
  }

  /** Every run can be carried on to its end by the programs themselves. */
  lemma {:induction false} FinishesByItself(run: seq<State>) returns (whole: seq<State>)
    requires Run(run)
    ensures Run(whole) && |whole| >= |run| && whole[..|run|] == run && Finished(Last(whole))
    ensures forall i | |run| <= i < |whole| :: ParentGoes(whole[i - 1], whole[i]) || ChildGoes(whole[i - 1], whole[i])
    decreases 41 - Ranks(Last(run))
  {
    hide Control, Init, Steps, Finished, Ranks, ParentGoes, ChildGoes;
    RunAdvances(run);
    SomeoneGoes(Last(run));
    if Finished(Last(run)) {
      whole := run;
    } else {
      var t :| ParentGoes(Last(run), t) || ChildGoes(Last(run), t);
      GoingIsStepping(Last(run), t);
      var more := run + [t];
      assert forall i | 0 < i < |more| :: Steps(more[i - 1], more[i]);
      StepsAdvance(Last(run), t);
      RanksBound(t);
      whole := FinishesByItself(more);
      assert whole[..|run|] == whole[..|more|][..|run|];
      assert whole[|run| - 1] == Last(run) && whole[|run|] == t;
    }
  }

  lemma GoingIsStepping(s: State, t: State)
    requires ParentGoes(s, t) || ChildGoes(s, t)
    ensures Steps(s, t)
  {
    hide ParentNext, ChildNext;
    if ParentGoes(s, t) {
      var ch :| ParentNext(s, ch) == Some(t);
      assert Next(s, ParentMoves(ch)) == Some(t);
    } else {
      var ch :| ChildNext(s, ch) == Some(t);
      assert Next(s, ChildMoves(ch)) == Some(t);
    }
  }
}
