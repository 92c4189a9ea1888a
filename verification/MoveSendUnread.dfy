/**
 What the MOVE_SEND probe says when the child dies between sending the descriptor and reporting: the
 delivery is there, the record stays blank, and the verdict is a breach of contract.
 */
module MoveSendUnread {
  import opened Baseline
  import opened MachKernel
  import opened PipeTransfer
  import opened Rendezvous
  import opened Envelope
  import opened MoveSendVerdict
  import opened MoveSend
  import opened MoveSendProgress
  import opened MoveSendLiveness
  import opened MoveSendKernel
  import opened MoveSendSafety
  import opened MoveSendMarks
  import opened MoveSendTransfer

  /** The child is gone without a byte of its record, and the parent has the descriptor. */
  ghost predicate Doomed(s: State) {
    && s.cpc == Gone && s.c.sent == 0
    && ParentRank(s.ppc) >= 10 && Delivered(s.p.r) && s.p.r.child == Unreported()
  }

  /** A step of the parent that changes nothing of the delivery or of the record it has. */
  ghost predicate DeliveryKept(s: State, n: Option<State>) {
    n.Some? ==>
      var r, q := s.p.r, n.value.p.r;
      && n.value.cpc == s.cpc && n.value.c == s.c && ParentRank(n.value.ppc) >= 10
      && q.before == r.before && q.pipeCreated == r.pipeCreated && q.forked == r.forked
      && q.krGetBootstrap == r.krGetBootstrap && q.krAllocService == r.krAllocService
      && q.krInsertService == r.krInsertService && q.krPublish == r.krPublish && q.krRestore == r.krRestore
      && q.mrReceive == r.mrReceive && q.descriptors == r.descriptors && q.delivered == r.delivered
      && q.child == r.child
  }

  lemma InspectKeeps(s: State, ch: Choice)
    requires s.ppc == PType || s.ppc == PRefs
    ensures DeliveryKept(s, ParentInspect(s, ch))
  {
    hide Type, SendRefs;
  }

  lemma VerifyKeeps(s: State, ch: Choice)
    requires s.ppc == PVerify
    ensures DeliveryKept(s, ParentVerify(s, ch))
  {
    hide Send;
  }

  lemma ReadKeeps(s: State, ch: Choice)
    requires s.ppc == PRead && s.p.r.forked && s.p.r.child == Unreported()
    requires s.p.got == 0 && s.pipe.data == [] && OfRecord(s.p.buffer) == Unreported()
    ensures DeliveryKept(s, ParentRead(s, ch))
  {
    hide Stored, OfRecord, Unreported;
    if ch.fail {
      assert ParentRead(s, ch).Some? ==> ParentRead(s, ch).value.p == s.p;
    }
  }

  lemma NothingRead(s: State)
    requires Control(s) && s.c.sent == 0
    ensures s.p.got == 0 && s.pipe.data == [] && OfRecord(s.p.buffer) == Unreported()
  {
    hide OfRecord, Fields;
    assert s.p.buffer == Record(Unreported());
    RecordRoundTrip(Unreported());
  }

  lemma BlankKeeps(s: State, ch: Choice)
    requires Control(s) && Doomed(s) && s.ppc == PRead
    ensures DeliveryKept(s, ParentRead(s, ch))
  {
    hide Control, DeliveryKept, ParentRead, OfRecord, Unreported;
    NothingRead(s);
    ReadKeeps(s, ch);
  }

  lemma WaitKeeps(s: State, ch: Choice)
    requires s.ppc == PCloseRead || s.ppc == PWait
    ensures DeliveryKept(s, ParentWait(s, ch))
  {
  }

  lemma ReclaimKeeps(s: State, ch: Choice)
    requires s.ppc == PDeallocate || s.ppc == PDestroy
    ensures DeliveryKept(s, ParentReclaim(s, ch))
  {
    hide Deallocate, Destroy;
  }

  lemma CleanupKeeps(s: State, ch: Choice)
    requires s.ppc == PDrop || s.ppc == PBaselineAgain
    ensures DeliveryKept(s, ParentCleanup(s, ch))
  {
    hide Deallocate, Lists, Matches;
  }

  lemma ParentKeeps(s: State, ch: Choice)
    requires Control(s) && Doomed(s)
    ensures DeliveryKept(s, ParentNext(s, ch))
  {
    hide Control, DeliveryKept, ParentOpen, ParentCreate, ParentFork, ParentRestore, ParentReceive, ParentInspect,
         ParentVerify, ParentRead, ParentWait, ParentReclaim, ParentCleanup, Delivered;
    match s.ppc
    case PType | PRefs => InspectKeeps(s, ch);
    case PVerify => VerifyKeeps(s, ch);
    case PRead => BlankKeeps(s, ch);
    case PCloseRead | PWait => WaitKeeps(s, ch);
    case PDeallocate | PDestroy => ReclaimKeeps(s, ch);
    case PDrop | PBaselineAgain => CleanupKeeps(s, ch);
    case Done => KeptByNothing(s);
  }

  lemma KeptByNothing(s: State)
    ensures DeliveryKept(s, None)
  {
  }

  lemma DoomedStays(s: State, t: State)
    requires Control(s) && Doomed(s) && Steps(s, t)
    ensures Doomed(t)
  {
    hide Control, ParentNext;
    var m :| Next(s, m) == Some(t);
    if m.ParentMoves? {
      ParentKeeps(s, m.choice);
    }
  }

  lemma {:induction false} DoomedToTheEnd(run: seq<State>, i: nat)
    requires Run(run) && i < |run| && Doomed(run[i])
    ensures Doomed(Last(run))
    decreases |run| - i
  {
    hide Init, Steps, Doomed, Control;
    if i < |run| - 1 {
      RunAdvances(run[..i + 1]);
      assert Steps(run[(i + 1) - 1], run[i + 1]);
      DoomedStays(run[i], run[i + 1]);
      DoomedToTheEnd(run, i + 1);
    }
  }

  /**
   In every run in which the child died with nothing of its record written and the parent had the
   descriptor, the verdict at the end blames the contract.
   */
  lemma DeathIsABreach(run: seq<State>, i: nat)
    requires Run(run) && i < |run| && Doomed(run[i]) && Last(run).ppc == Done
    ensures Ladder(Last(run).p.r) == Breach("child cargo type before send was not SEND_RECEIVE")
  {
    hide Init, Steps, Ladder, Delivered;
    DoomedToTheEnd(run, i);
    UnreadStatusIsABreach(Last(run).p.r);
  }

  // ---- there are such runs --------------------------------------------------------------------------------

  /** The parent advances one place at a time. */
  ghost predicate OnePlace(s: State, n: Option<State>) {
    n.Some? ==> ParentRank(n.value.ppc) <= ParentRank(s.ppc) + 1
  }

  lemma ReadPlace(s: State, ch: Choice)
    requires s.ppc == PRead
    ensures OnePlace(s, ParentRead(s, ch))
  {
    hide OfRecord, Stored;
  }

  lemma OpenPlace(s: State, ch: Choice)
    ensures s.ppc == PBaseline || s.ppc == PPipe ==> OnePlace(s, ParentOpen(s, ch))
    ensures s.ppc == PFork ==> OnePlace(s, ParentFork(s, ch))
    ensures s.ppc == PCloseWrite || s.ppc == PRestore ==> OnePlace(s, ParentRestore(s, ch))
    ensures s.ppc == PCloseRead || s.ppc == PWait ==> OnePlace(s, ParentWait(s, ch))
  {
    hide Lists, SetBootstrap;
    match s.ppc
    case PBaseline => case PPipe => case PFork => case PCloseWrite => case PRestore => case PCloseRead => case PWait =>
    case _ =>
  }

  lemma AlonePlace(s: State, n: Option<State>)
    requires n.Some? ==> ParentAlone(s, n.value)
    ensures OnePlace(s, n)
  {
  }

  lemma ParentPlace(s: State, ch: Choice)
    ensures OnePlace(s, ParentNext(s, ch))
  {
    hide ParentAlone, OnePlace, ParentOpen, ParentCreate, ParentFork, ParentRestore, ParentReceive, ParentInspect,
         ParentVerify, ParentRead, ParentWait, ParentReclaim, ParentCleanup;
    match s.ppc {
      case PGetBootstrap => OriginalAlone(s, ch);
      case PAllocate => AllocateServiceAlone(s, ch);
      case PInsert => InsertServiceAlone(s, ch);
      case PPublish => PublishAlone(s, ch);
      case PReceive => ParentReceiveAlone(s, ch);
      case PType | PRefs => ParentInspectAlone(s, ch);
      case PVerify => VerifyAlone(s, ch);
      case PDeallocate => DeallocateAlone(s, ch);
      case PDestroy => DestroyServiceAlone(s, ch);
      case PDrop => DropBootstrapAlone(s, ch);
      case PBaselineAgain => BaselineAgainAlone(s, ch);
      case PRead => ReadPlace(s, ch);
      case Done => NoPlace(s);
      case _ => OpenPlace(s, ch);
    }
    if s.ppc in {PGetBootstrap, PAllocate, PInsert, PPublish, PReceive, PType, PRefs, PVerify, PDeallocate, PDestroy, PDrop, PBaselineAgain} {
      AlonePlace(s, ParentNext(s, ch));
    }
  }

  lemma NoPlace(s: State)
    ensures OnePlace(s, None)
  {
  }

  lemma ChildPlace(s: State, ch: Choice)
    ensures var n := ChildNext(s, ch); n.Some? ==> n.value.ppc == s.ppc
  {
    hide ChildArrive, ChildCreate, ChildInspect, ChildSend, ChildInspectSent, ChildReceive, ChildInspectVerified,
         ChildCleanup, ChildWrite, ChildLeave;
    match s.cpc
    case CGetBootstrap | CBaseline => ArriveAlone(s, ch);
    case CAllocate => AllocateAlone(s, ch);
    case CInsert => InsertAlone(s, ch);
    case CType | CRefs => InspectAlone(s, ch);
    case CSend => SendAlone(s, ch);
    case CTypeSent | CRefsSent => InspectSentAlone(s, ch);
    case CReceive => ReceiveAlone(s, ch);
    case CTypeVerified | CRefsVerified => InspectVerifiedAlone(s, ch);
    case CDestroy => DestroyAlone(s, ch);
    case CBaselineAgain => BaselineAlone(s, ch);
    case CDrop => DropAlone(s, ch);
    case CWrite | CClose | CExit => LatePlace(s, ch);
    case _ =>
  }

  lemma LatePlace(s: State, ch: Choice)
    ensures var n := ChildWrite(s, ch); n.Some? ==> n.value.ppc == s.ppc
    ensures var n := ChildLeave(s, ch); n.Some? ==> n.value.ppc == s.ppc
  {
    hide Record, Exit;
  }

  lemma StepsPlace(s: State, t: State)
    requires Steps(s, t)
    ensures ParentRank(t.ppc) <= ParentRank(s.ppc) + 1
  {
    hide ParentNext, ChildNext, ParentRank, Exit;
    var m :| Next(s, m) == Some(t);
    match m
    case ParentMoves(ch) => ParentPlace(s, ch);
    case ChildMoves(ch) => ChildPlace(s, ch);
    case ChildDies =>
  }

  /** An undisturbed run past the receipt went through the state just after it. */
  lemma {:induction false} ReceiptState(run: seq<State>) returns (early: seq<State>)
    requires Undisturbed(run) && ParentRank(Last(run).ppc) >= 10
    ensures Undisturbed(early) && Last(early).ppc == PType
  {
    hide Init, Steps, Invariant, ParentRank;
    if ParentRank(Last(run).ppc) == 10 {
      early := run;
      RankTen(Last(run));
    } else {
      if |run| == 1 {
        InitRank(run[0]);
      }
      var before := run[..|run| - 1];
      assert Steps(run[|run| - 2], run[|run| - 1]);
      StepsPlace(Last(before), Last(run));
      RunInvariant(before);
      InvariantKept(run[0].k, Last(before), Last(run));
      early := ReceiptState(before);
    }
  }

  lemma RankTen(s: State)
    requires ParentRank(s.ppc) == 10
    ensures s.ppc == PType
  {
  }

  lemma InitRank(s: State)
    requires Init(s)
    ensures ParentRank(s.ppc) == 0
  {
  }

  lemma AtReceipt(o: Kernel, s: State)
    requires Calm(o, s) && Control(s) && s.ppc == PType
    ensures 7 < ChildRank(s.cpc) <= 10 && s.c.sent == 0 && Delivered(s.p.r) && s.p.r.child == Unreported()
  {
    assert 7 < ChildRank(s.cpc) <= 10 && s.c.sent == 0 by {
      hide KernelAt, Picked, ResultsAt, StatusAt, Seen, InTransit;
    }
    assert !BlocksProbe(s.p.r.before) && s.p.r.delivered != MACH_PORT_NULL by {
      hide Control, KernelAt, SendName, Held, Serving, Found, ResultsAt, StatusAt;
    }
    hide Control, KernelAt, Picked, Seen, StatusAt, BlocksProbe;
  }

  lemma DoomedRunExists() returns (run: seq<State>, i: nat)
    ensures Run(run) && |run| == i + 2 && Doomed(run[i + 1])
    ensures 7 < ChildRank(run[i].cpc) < 16 && !run[i].disturbed && Next(run[i], ChildDies) == Some(run[i + 1])
  {
    var early, t := KilledAtReceipt();
    run, i := OneMore(early, t);
    hide *;
  }

  /** An undisturbed run just past the receipt, and the state after the child is killed there. */
  lemma KilledAtReceipt() returns (run: seq<State>, t: State)
    ensures Undisturbed(run) && 7 < ChildRank(Last(run).cpc) < 16
    ensures Next(Last(run), ChildDies) == Some(t) && Steps(Last(run), t) && Doomed(t)
  {
    hide Init, Steps, Next, Finished, ParentRank, ChildRank, Control, Ready, Calm, Doomed, Ladder;
    var passed := PassIsReachable();
    DoneRank(Last(passed));
    run := ReceiptState(passed);
    UndisturbedIsCalm(run);
    AtReceipt(run[0].k, Last(run));
    t := Killed(Last(run));
  }

  lemma OneMore(early: seq<State>, t: State) returns (run: seq<State>, i: nat)
    requires Undisturbed(early) && Steps(Last(early), t)
    ensures Run(run) && |run| == i + 2 && run[i] == Last(early) && run[i + 1] == t && !run[i].disturbed
  {
    hide Init, Steps;
    run := early + [t];
    i := |early| - 1;
    assert forall j | 0 < j < |run| :: Steps(run[j - 1], run[j]);
  }

  /**
   There is a run in which the child is killed after it sent the descriptor and before it wrote a
   byte, and nothing else goes wrong; its verdict is FAIL, a breach of contract.
   */
  lemma BreachIsReachable() returns (run: seq<State>, i: nat)
    ensures Run(run) && i + 1 < |run| && Finished(Last(run))
    ensures 7 < ChildRank(run[i].cpc) < 16 && !run[i].disturbed && Next(run[i], ChildDies) == Some(run[i + 1])
    ensures forall j | i + 2 <= j < |run| :: ParentGoes(run[j - 1], run[j]) || ChildGoes(run[j - 1], run[j])
    ensures Ladder(Last(run).p.r) == Breach("child cargo type before send was not SEND_RECEIVE")
  {
    hide Init, Steps, Finished, Ladder, ChildRank, Next, ParentGoes, ChildGoes, Doomed;
    var more;
    more, i := DoomedRunExists();
    run := FinishesByItself(more);
    assert run[i] == run[..|more|][i] && run[i + 1] == run[..|more|][i + 1];
    FinishedIsDone(Last(run));
    DeathIsABreach(run, i + 1);
  }

  lemma DoneRank(s: State)
    requires Finished(s)
    ensures ParentRank(s.ppc) >= 10
  {
  }

  lemma FinishedIsDone(s: State)
    requires Finished(s)
    ensures s.ppc == Done
  {
  }

  lemma Killed(s: State) returns (t: State)
    requires s.ppc == PType && 7 < ChildRank(s.cpc) <= 10 && s.c.sent == 0 && Delivered(s.p.r) && s.p.r.child == Unreported()
    ensures Next(s, ChildDies) == Some(t) && Steps(s, t) && Doomed(t)
  {
    hide Delivered, Exit;
    t := ChildKilled(s).value;
    assert Next(s, ChildDies) == Some(t);
  }
}
