/**
 No state of the MOVE_SEND probe is stuck: while the run is not finished one of the two programs can
 take its next step by itself, and without a disturbance unless all that is left is to wait for a message.
 */
module MoveSendLiveness {
  import opened Pigeonhole
  import opened Baseline
  import opened MachKernel
  import opened KernelSizes
  import opened KernelChoices
  import opened PipeTransfer
  import opened MoveSendVerdict
  import opened MoveSend
  import opened MoveSendProgress

  // ---- who waits ---------------------------------------------------------------------------------------------

  /** In a receive call with an empty queue: only a timeout or the other program helps. */
  ghost predicate ChildWaits(s: State) {
    && s.cpc == CReceive && s.c.st.mrSend == MACH_MSG_SUCCESS
    && Awaits(s.k, Child, s.c.cargo).Some? && s.k.queues[Awaits(s.k, Child, s.c.cargo).value] == []
  }

  ghost predicate ParentWaits(s: State) {
    && s.ppc == PReceive && s.p.r.forked
    && Awaits(s.k, Parent, s.p.service).Some? && s.k.queues[Awaits(s.k, Parent, s.p.service).value] == []
  }

  /** In a call without a timeout that cannot return now. */
  predicate ChildBlocked(s: State) {
    s.cpc == CWrite && s.c.sent < RECORD_SIZE && s.pipe.parentReads && |s.pipe.data| >= s.pipe.capacity
  }

  predicate ParentBlocked(s: State) {
    s.p.r.forked &&
    ((s.ppc == PRead && s.p.got < RECORD_SIZE && s.pipe.data == [] && (s.pipe.parentWrites || s.pipe.childWrites))
     || (s.ppc == PWait && s.cpc != Gone))
  }

  predicate Alive(s: State) {
    s.cpc != Unborn && s.cpc != Gone
  }

  /** The calls without a timeout never wait for each other in a circle. */
  lemma NoCircularWait(s: State)
    requires Control(s) && !Finished(s)
    ensures (s.ppc != Done && !ParentBlocked(s)) || (Alive(s) && !ChildBlocked(s))
  {
    hide InTransit;
    if ParentBlocked(s) {
      EmptyPipe(s);
    }
  }

  lemma EmptyPipe(s: State)
    requires Control(s)
    ensures s.pipe.data == [] ==> |s.pipe.data| < s.pipe.capacity
  {
  }

  /** Nobody writes to a pipe without a reader. */
  lemma NoBrokenPipe(s: State)
    requires Control(s) && s.cpc == CWrite && s.c.sent < RECORD_SIZE
    ensures s.pipe.parentReads
  {
    hide InTransit;
  }

  // ---- a possible move --------------------------------------------------------------------------------------

  ghost predicate Calmly(s: State, n: Option<State>) {
    n.Some? && n.value.disturbed == s.disturbed
  }

  function Naming(name: Name): Choice {
    Choice(name, NoSnapshot(), 0, false, 0, 0)
  }

  function Listed(listing: Snapshot): Choice {
    Choice(0, listing, 0, false, 0, 0)
  }

  function Moving(count: nat): Choice {
    Choice(0, NoSnapshot(), count, false, 0, 0)
  }

  function Failing(): Choice {
    Choice(0, NoSnapshot(), 0, true, 0, 0)
  }

  lemma EnterMoves(s: State) returns (ch: Choice)
    requires Control(s) && (s.cpc == CGetBootstrap || s.cpc == CBaseline || s.cpc == CAllocate)
    ensures !ch.fail
    ensures Calmly(s, ChildNext(s, ch))
  {
    hide Ends, Traffic, SendName, GetBootstrap, Allocate, Lists;
    if s.cpc == CGetBootstrap {
      var n := BootstrapNameExists(s.k, Child);
      ch := Naming(n);
    } else if s.cpc == CBaseline {
      var l := ListsExists(s.k, Child);
      ch := Listed(l);
    } else {
      var n := FreeNameExists(s.k.child);
      ch := Naming(n);
    }
  }

  lemma TransferMoves(s: State) returns (ch: Choice)
    requires Control(s) && s.cpc == CReceive
    ensures ch.fail ==> ChildWaits(s)
    ensures if ChildWaits(s) then ChildNext(s, ch).Some? else Calmly(s, ChildNext(s, ch))
  {
    hide Ends, Traffic, Receive, DeliveryName, Awaits;
    ch := if ChildWaits(s) then Failing() else Naming(0);
    if s.c.st.mrSend == MACH_MSG_SUCCESS && !ChildWaits(s) {
      var port := Awaits(s.k, Child, s.c.cargo);
      AwaitsQueue(s.k, Child, s.c.cargo);
      if port.Some? {
        var n := DeliveryNameExists(s.k, Child, s.k.queues[port.value][0].cargo);
        ch := Naming(n);
      }
    }
  }

  lemma InnerMoves(s: State, ch: Choice)
    requires s.cpc in {CInsert, CType, CRefs, CSend, CTypeSent, CRefsSent, CTypeVerified, CRefsVerified}
    ensures Calmly(s, ChildNext(s, ch))
  {
    hide MakeSend, Type, SendRefs, Send;
  }

  lemma LateMoves(s: State) returns (ch: Choice)
    requires Control(s) && s.cpc in {CDestroy, CBaselineAgain, CDrop, CClose, CExit}
    ensures !ch.fail
    ensures Calmly(s, ChildNext(s, ch))
  {
    hide Control, Destroy, Deallocate, Lists, Matches, ToInt, ExitCode, Exit;
    var l := ListsExists(s.k, Child);
    ch := Listed(l);
  }

  lemma WriteMoves(s: State) returns (ch: Choice)
    requires Control(s) && s.cpc == CWrite && !ChildBlocked(s)
    ensures !ch.fail
    ensures Calmly(s, ChildNext(s, ch))
  {
    hide InTransit, Record;
    if s.c.sent < RECORD_SIZE {
      NoBrokenPipe(s);
    }
    ch := Moving(1);
  }

  lemma ChildCanMove(s: State) returns (ch: Choice)
    requires Control(s) && Alive(s) && !ChildBlocked(s)
    ensures ch.fail ==> ChildWaits(s)
    ensures if ChildWaits(s) then ChildNext(s, ch).Some? else Calmly(s, ChildNext(s, ch))
  {
    hide Control, ChildNext, Awaits, ChildBlocked;
    ch := Naming(0);
    match s.cpc
    case CGetBootstrap | CBaseline | CAllocate => ch := EnterMoves(s);
    case CReceive => ch := TransferMoves(s);
    case CWrite => ch := WriteMoves(s);
    case CDestroy | CBaselineAgain | CDrop | CClose | CExit => ch := LateMoves(s);
    case _ => InnerMoves(s, ch);
  }

  lemma ParentEntersMoves(s: State) returns (ch: Choice)
    requires Control(s) && s.ppc in {PBaseline, PPipe, PGetBootstrap, PAllocate, PInsert}
    ensures !ch.fail
    ensures Calmly(s, ParentNext(s, ch))
  {
    hide Ends, Traffic, SendName, GetBootstrap, Allocate, Lists, MakeSend;
    if s.ppc == PBaseline {
      var l := ListsExists(s.k, Parent);
      ch := Listed(l);
    } else if s.ppc == PGetBootstrap {
      var n := BootstrapNameExists(s.k, Parent);
      ch := Naming(n);
    } else {
      var n := FreeNameExists(s.k.parent);
      ch := Naming(n);
    }
  }

  lemma ParentForkMoves(s: State, ch: Choice)
    requires s.ppc in {PPublish, PFork, PCloseWrite, PRestore} && !ch.fail
    ensures Calmly(s, ParentNext(s, ch))
  {
    hide SetBootstrap;

  }

  lemma ParentReceiveMoves(s: State) returns (ch: Choice)
    requires Control(s) && s.ppc == PReceive
    ensures ch.fail ==> ParentWaits(s)
    ensures if ParentWaits(s) then ParentNext(s, ch).Some? else Calmly(s, ParentNext(s, ch))
  {
    hide Ends, Traffic, Receive, DeliveryName, Awaits;
    ch := if ParentWaits(s) then Failing() else Naming(0);
    if s.p.r.forked && !ParentWaits(s) {
      var port := Awaits(s.k, Parent, s.p.service);
      AwaitsQueue(s.k, Parent, s.p.service);
      if port.Some? {
        var n := DeliveryNameExists(s.k, Parent, s.k.queues[port.value][0].cargo);
        ch := Naming(n);
      }
    }
  }

  lemma ParentInspectMoves(s: State, ch: Choice)
    requires s.ppc in {PType, PRefs, PVerify}
    ensures Calmly(s, ParentNext(s, ch))
  {
    hide Type, SendRefs, Send;
  }

  lemma ParentReadMoves(s: State) returns (ch: Choice)
    requires Control(s) && s.ppc == PRead && !ParentBlocked(s)
    ensures !ch.fail
    ensures Calmly(s, ParentNext(s, ch))
  {
    hide Ends, Traffic, OfRecord, Stored;
    ch := Moving(1);
  }

  lemma ParentLateMoves(s: State) returns (ch: Choice)
    requires s.ppc in {PCloseRead, PWait, PDeallocate, PDestroy, PDrop, PBaselineAgain} && !ParentBlocked(s)
    ensures !ch.fail
    ensures Calmly(s, ParentNext(s, ch))
  {
    hide Deallocate, Destroy, Lists, Matches;
    var l := ListsExists(s.k, Parent);
    ch := Listed(l);
  }

  lemma ParentCanMove(s: State) returns (ch: Choice)
    requires Control(s) && s.ppc != Done && !ParentBlocked(s)
    ensures ch.fail ==> ParentWaits(s)
    ensures if ParentWaits(s) then ParentNext(s, ch).Some? else Calmly(s, ParentNext(s, ch))
  {
    hide Control, ParentNext, Awaits, ParentBlocked;
    ch := Naming(0);
    match s.ppc
    case PBaseline | PPipe | PGetBootstrap | PAllocate | PInsert => ch := ParentEntersMoves(s);
    case PPublish | PFork | PCloseWrite | PRestore => ParentForkMoves(s, ch);
    case PReceive => ch := ParentReceiveMoves(s);
    case PType | PRefs | PVerify => ParentInspectMoves(s, ch);
    case PRead => ch := ParentReadMoves(s);
    case _ => ch := ParentLateMoves(s);
  }

  // ---- progress ----------------------------------------------------------------------------------------------

  /** The parent can take its next step by itself exactly if it is not done and not blocked. */
  lemma ParentGoesUnlessBlocked(s: State)
    requires Control(s)
    ensures ParentCanGo(s) <==> s.ppc != Done && !ParentBlocked(s)
  {
    hide Control;
    if s.ppc != Done && !ParentBlocked(s) {
      hide ParentNext, ParentWaits;
      var ch := ParentCanMove(s);
      WaitsWhere(s);
      assert ParentGoes(s, ParentNext(s, ch).value);
    } else if ParentCanGo(s) {
      var t :| ParentGoes(s, t);
      var ch: Choice :| (ch.fail ==> s.ppc == PReceive) && ParentNext(s, ch) == Some(t);
      NothingWhenBlocked(s, ch);
    }
  }

  lemma WaitsWhere(s: State)
    ensures ParentWaits(s) ==> s.ppc == PReceive
    ensures ChildWaits(s) ==> s.cpc == CReceive
  {
  }

  lemma NothingWhenBlocked(s: State, ch: Choice)
    ensures s.ppc == Done || (ParentBlocked(s) && !ch.fail) ==> ParentNext(s, ch).None?
    ensures (ChildBlocked(s) && !ch.fail) || !Alive(s) ==> ChildNext(s, ch).None?
  {
    hide Stored, OfRecord, Record;
    assert ChildBlocked(s) && !ch.fail ==> ChildWrite(s, ch).None?;
  }

  /** And so can the child. */
  lemma ChildGoesUnlessBlocked(s: State)
    requires Control(s)
    ensures ChildCanGo(s) <==> Alive(s) && !ChildBlocked(s)
  {
    hide Control;
    if Alive(s) && !ChildBlocked(s) {
      hide ChildNext, ChildWaits;
      var ch := ChildCanMove(s);
      WaitsWhere(s);
      assert ChildGoes(s, ChildNext(s, ch).value);
    } else if ChildCanGo(s) {
      var t :| ChildGoes(s, t);
      var ch: Choice :| (ch.fail ==> s.cpc == CReceive) && ChildNext(s, ch) == Some(t);
      NothingWhenBlocked(s, ch);
    }
  }

  /**
   In every run, however disturbed so far, a program can take its next step by itself, with nobody
   killed and nothing interrupted, exactly as long as the run is not finished.
   */
  lemma Progress(run: seq<State>)
    requires Run(run)
    ensures ParentCanGo(Last(run)) || ChildCanGo(Last(run)) <==> !Finished(Last(run))
  {
    hide Init, Steps, Control, Finished, ParentCanGo, ChildCanGo;
    RunAdvances(run);
    SomeoneGoes(Last(run));
  }

  lemma SomeoneGoes(s: State)
    requires Control(s)
    ensures ParentCanGo(s) || ChildCanGo(s) <==> !Finished(s)
  {
    hide Control, ParentBlocked, ChildBlocked, ParentCanGo, ChildCanGo;
    ParentGoesUnlessBlocked(s);
    ChildGoesUnlessBlocked(s);
    if !Finished(s) {
      NoCircularWait(s);
    }
  }

  /** A run in which neither program can take a step by itself is finished: both are at their end. */
  lemma DeadEndIsFinish(run: seq<State>)
    requires Run(run) && !ParentCanGo(Last(run)) && !ChildCanGo(Last(run))
    ensures Last(run).ppc == Done && (Last(run).p.r.forked ==> Last(run).cpc == Gone)
  {
    hide Control, Init, Steps, ParentCanGo, ChildCanGo;
    Progress(run);
    RunAdvances(run);
    ForkedChild(Last(run));
  }

  lemma ForkedChild(s: State)
    requires Control(s)
    ensures s.p.r.forked <==> s.cpc != Unborn
  {
  }

  /** Every run can be carried on to its end by the programs themselves. */
  lemma {:induction false} FinishesByItself(run: seq<State>) returns (whole: seq<State>)
    requires Run(run)
    ensures Run(whole) && |whole| >= |run| && whole[..|run|] == run && Finished(Last(whole))
    ensures forall i | |run| <= i < |whole| :: ParentGoes(whole[i - 1], whole[i]) || ChildGoes(whole[i - 1], whole[i])
    decreases Remaining(Last(run))
  {
    hide Control, Init, Steps, Finished, Remaining, ParentGoes, ChildGoes;
    RunAdvances(run);
    SomeoneGoes(Last(run));
    if Finished(Last(run)) {
      whole := run;
    } else {
      var t :| ParentGoes(Last(run), t) || ChildGoes(Last(run), t);
      GoingIsStepping(Last(run), t);
      var more := run + [t];
      assert forall i | 0 < i < |more| :: Steps(more[i - 1], more[i]);
      StepsAdvance(Last(run), t);
      NothingBelowZero(t);
      whole := FinishesByItself(more);
      assert whole[..|run|] == whole[..|more|][..|run|];
      assert whole[|run| - 1] == Last(run) && whole[|run|] == t;
    }
  }

  lemma GoingIsStepping(s: State, t: State)
    requires ParentGoes(s, t) || ChildGoes(s, t)
    ensures Steps(s, t)
  {
    hide ParentNext, ChildNext;
    if ParentGoes(s, t) {
      var ch :| ParentNext(s, ch) == Some(t);
      assert Next(s, ParentMoves(ch)) == Some(t);
    } else {
      var ch :| ChildNext(s, ch) == Some(t);
      assert Next(s, ChildMoves(ch)) == Some(t);
    }
  }
}
