/**
 The promises of the MOVE_SEND probe over whole runs: one send right for the cargo port and always
 in one place, inspection before destruction, one deallocation, namespaces back at their baselines,
 and a verdict that is PASS exactly for undisturbed runs.
 */
module MoveSendTransfer {
  import opened Baseline
  import opened MachKernel
  import opened Envelope
  import opened Rendezvous
  import opened MoveSendVerdict
  import opened MoveSend
  import opened MoveSendProgress
  import opened MoveSendLiveness
  import opened MoveSendKernel
  import opened MoveSendSafety
  import opened MoveSendMarks

  ghost predicate Invariant(o: Kernel, s: State) {
    Ready(o) && Control(s) && Marked(s) && (!s.disturbed ==> Calm(o, s))
  }

  lemma InvariantKept(o: Kernel, s: State, t: State)
    requires Invariant(o, s) && Steps(s, t)
    ensures Invariant(o, t) && (s.disturbed ==> t.disturbed)
  {
    hide Ready, Control, Marked, Calm, Next;
    var m :| Next(s, m) == Some(t);
    StepAdvances(s, m);
    ControlHasTraffic(s);
    MarkedStep(s, m);
    if !s.disturbed {
      CalmStep(o, s, m);
    }
  }

  lemma ControlHasTraffic(s: State)
    requires Control(s)
    ensures Traffic(s)
  {
  }

  /** Every state of every run. */
  lemma {:induction false} RunInvariant(run: seq<State>)
    requires Run(run)
    ensures Invariant(run[0].k, Last(run))
  {
    hide Init, Invariant, Steps;
    if |run| == 1 {
      Begins(run[0]);
    } else {
      assert Steps(run[|run| - 2], run[|run| - 1]);
      RunInvariant(run[..|run| - 1]);
      InvariantKept(run[0].k, run[|run| - 2], run[|run| - 1]);
    }
  }

  lemma Begins(s: State)
    requires Init(s)
    ensures Invariant(s.k, s)
  {
    hide Control, Marked, Calm, Ready;
    InitControl(s);
    InitMarked(s);
    InitCalm(s);
  }

  /** An undisturbed run. */
  ghost predicate Undisturbed(run: seq<State>) {
    Run(run) && !Last(run).disturbed
  }

  lemma UndisturbedIsCalm(run: seq<State>)
    requires Undisturbed(run)
    ensures Ready(run[0].k) && Calm(run[0].k, Last(run)) && Control(Last(run))
  {
    hide Run, Calm, Ready, Control;
    RunInvariant(run);
  }

  // ---- one right, one place ----------------------------------------------------------------------------

  /** Where the send right for the cargo port is while there is one. */
  function CargoPlace(o: Kernel, s: State): Place {
    if ChildRank(s.cpc) <= 7 then InSpace(Child, s.c.cargo)
    else if ParentRank(s.ppc) <= 9 then InMessage(o.next, 0)
    else InSpace(Parent, s.p.r.delivered)
  }

  /** The right's user references at a place. */
  function References(k: Kernel, at: Place): nat {
    match at
    case InSpace(t, n) => if n in SpaceOf(k, t) && SpaceOf(k, t)[n].Rights? then SpaceOf(k, t)[n].sends else 0
    case InMessage(_, _) => 1
  }

  lemma NoCargoAtStart(o: Kernel)
    requires Ready(o)
    ensures SendRightsIn(o.parent, Parent, o.next + 1) == {} && SendRightsIn(o.child, Child, o.next + 1) == {}
  {
    BelowMore(o.parent, o.next);
    NoneIn(o.parent, Parent, o.next + 1);
    NoneIn(o.child, Child, o.next + 1);
  }

  lemma NoCargoHeld(o: Kernel, m: Names)
    requires Ready(o) && SendName(o.parent, o.parentBootstrap, m.bootstrap)
    ensures SendRightsIn(Held(o, m.bootstrap), Parent, o.next + 1) == {}
  {
    HeldFacts(o, m.bootstrap);
    BelowMore(Held(o, m.bootstrap), o.next);
    NoneIn(Held(o, m.bootstrap), Parent, o.next + 1);
  }

  lemma NoCargoFound(o: Kernel, m: Names)
    requires Ready(o) && SendName(o.child, o.next, m.published)
    ensures SendRightsIn(Found(o, m.published), Child, o.next + 1) == {}
  {
    FoundFacts(o, m.published);
    NoneIn(Found(o, m.published), Child, o.next + 1);
  }

  lemma NameIsNew(o: Kernel, m: Names, pn: nat, cn: nat)
    requires Picked(o, m, pn, cn)
    ensures pn > 3 ==> m.service !in Held(o, m.bootstrap)
    ensures pn > 9 ==> m.delivered !in Held(o, m.bootstrap)[m.service := Rights(o.next, true, 1)]
    ensures cn > 3 ==> m.cargo !in Found(o, m.published)
  {
    hide SendName, Held, Found;
  }

  lemma CargoInParent(o: Kernel, m: Names, pn: nat, cn: nat)
    requires Ready(o) && Picked(o, m, pn, cn) && InStep(pn, cn)
    ensures SendRightsIn(ParentSpace(o, m, pn, cn), Parent, o.next + 1)
              == if 10 <= pn <= 16 && cn <= 13 then {InSpace(Parent, m.delivered)} else {}
  {
    hide Ready, SendName, FreeName, Held, SendRightsIn;
    var port, held := o.next + 1, Held(o, m.bootstrap);
    if pn <= 2 || pn > 18 {
      NoCargoAtStart(o);
    } else {
      NoCargoHeld(o, m);
      if 4 <= pn <= 17 {
        NameIsNew(o, m, pn, cn);
        var service := Rights(o.next, true, if pn == 4 then 0 else 1);
        FirstIn(held, Parent, port, m.service, service);
        if 10 <= pn <= 16 {
          FirstIn(held[m.service := service], Parent, port, m.delivered, if cn > 13 then Dead(1) else Rights(port, false, 1));
        }
      }
    }
  }

  lemma CargoInChild(o: Kernel, m: Names, pn: nat, cn: nat)
    requires Ready(o) && Picked(o, m, pn, cn)
    ensures SendRightsIn(ChildSpace(o, m, cn), Child, o.next + 1)
              == if 5 <= cn <= 7 then {InSpace(Child, m.cargo)} else {}
  {
    hide Ready, SendName, FreeName, Found, SendRightsIn;
    var port, found := o.next + 1, Found(o, m.published);
    if cn <= 1 || 16 <= cn <= 18 {
      NoCargoAtStart(o);
    } else if cn > 18 {
      NoneIn(map[], Child, port);
    } else {
      NoCargoFound(o, m);
      if 4 <= cn <= 13 {
        NameIsNew(o, m, pn, cn);
        FirstIn(found, Child, port, m.cargo, Rights(port, true, if 5 <= cn <= 7 then 1 else 0));
      }
    }
  }

  lemma CargoInServiceQueue(o: Kernel, sent: bool)
    requires o.next !in o.queues && Carrying(o.queues, CarriedSend(o.next + 1)) == {}
    ensures Carrying(o.queues[o.next := if sent then [DescriptorMessage(o)] else []], CarriedSend(o.next + 1))
              == if sent then {InMessage(o.next, 0)} else {}
  {
    hide Carrying;
    NewQueue(o.queues, o.next, DescriptorMessage(o), CarriedSend(o.next + 1));
    NewEmptyQueue(o.queues, o.next, CarriedSend(o.next + 1));
  }

  lemma CargoInQueues(o: Kernel, pn: nat, cn: nat)
    requires Ready(o) && InStep(pn, cn)
    ensures Carrying(Queues(o, pn, cn), CarriedSend(o.next + 1))
              == if cn > 7 && pn <= 9 then {InMessage(o.next, 0)} else {}
  {
    hide Ready, Carrying;
    var port, cargo := o.next + 1, CarriedSend(o.next + 1);
    FreshPorts(o);
    NoneCarriedYet(o);
    if 4 <= pn <= 17 {
      CargoInServiceQueue(o, cn > 7 && pn <= 9);
    }
    var q := if 4 <= pn <= 17 then o.queues[o.next := if cn > 7 && pn <= 9 then [DescriptorMessage(o)] else []] else o.queues;
    if 4 <= cn <= 13 {
      if pn > 12 && cn <= 10 {
        NewQueue(q, port, VerifyMessage(), cargo);
      } else {
        NewEmptyQueue(q, port, cargo);
      }
    }
  }

  lemma NoneCarriedYet(o: Kernel)
    requires Ready(o)
    ensures Carrying(o.queues, CarriedSend(o.next + 1)) == {}
  {
    assert CarryBelow(o.queues, o.next + 1);
    NoneCarried(o.queues, o.next + 1);
  }

  lemma CargoIsThere(o: Kernel, m: Names, pn: nat, cn: nat)
    requires InStep(pn, cn) && 5 <= cn <= 13
    ensures cn <= 7 ==> m.cargo in ChildSpace(o, m, cn) && ChildSpace(o, m, cn)[m.cargo] == Rights(o.next + 1, true, 1)
    ensures pn > 9 ==> m.delivered in ParentSpace(o, m, pn, cn)
                       && ParentSpace(o, m, pn, cn)[m.delivered] == Rights(o.next + 1, false, 1)
  {
    hide Held, Found;
  }

  ghost predicate OneRight(o: Kernel, s: State) {
    && SendRights(s.k, o.next + 1) == (if 5 <= ChildRank(s.cpc) <= 13 then {CargoPlace(o, s)} else {})
    && (5 <= ChildRank(s.cpc) <= 13 ==> References(s.k, CargoPlace(o, s)) == 1)
  }

  lemma CalmHasOneRight(o: Kernel, s: State)
    requires Ready(o) && Calm(o, s)
    ensures OneRight(o, s)
  {
    hide Ready, Picked, ResultsAt, StatusAt, Seen, Carrying, SendRightsIn, ParentSpace, ChildSpace, Queues;
    var pn, cn, m := ParentRank(s.ppc), ChildRank(s.cpc), NamesOf(s);
    CargoInParent(o, m, pn, cn);
    CargoInChild(o, m, pn, cn);
    CargoInQueues(o, pn, cn);
    if 5 <= cn <= 13 {
      CargoIsThere(o, m, pn, cn);
    }
  }

  /**
   From its creation to the death of its port there is exactly one send right for the cargo port,
   in one place, with one reference: in the child, in the message, or in the parent. Before and
   after there is none.
   */
  lemma OneSendRight(run: seq<State>)
    requires Undisturbed(run)
    ensures OneRight(run[0].k, Last(run))
  {
    hide Ready, Calm, OneRight, Control, Init, Steps;
    UndisturbedIsCalm(run);
    CalmHasOneRight(run[0].k, Last(run));
  }

  // ---- order and cleanup --------------------------------------------------------------------------------

  ghost predicate Inspected(o: Kernel, s: State) {
    var pn, cn, r := ParentRank(s.ppc), ChildRank(s.cpc), s.p.r;
    && (9 < pn <= 12 ==> cn <= 10 && r.delivered in s.k.parent && s.k.parent[r.delivered] == Rights(o.next + 1, false, 1))
    && (cn > 10 ==> pn > 12)
    && (pn > 12 ==> r.krType == r.krRefs == KERN_SUCCESS && r.typeOf == TYPE_SEND && r.refs == 1
                    && r.mrVerify == MACH_MSG_SUCCESS)
  }

  lemma CalmIsInspected(o: Kernel, s: State)
    requires Calm(o, s)
    ensures Inspected(o, s)
  {
    hide Queues, ChildSpace, Held, Seen, Picked, StatusAt;
  }

  /**
   While the parent inspects the delivered right it is alive, a send right with one reference, and
   the child is not past its receive call; so the child destroys the cargo port only afterwards.
   */
  lemma InspectedBeforeDestroyed(run: seq<State>)
    requires Undisturbed(run)
    ensures Inspected(run[0].k, Last(run))
  {
    hide Ready, Calm, Inspected, Control, Init, Steps;
    UndisturbedIsCalm(run);
    CalmIsInspected(run[0].k, Last(run));
  }

  /**
   The parent's one deallocate call always finds the dead name with one reference, succeeds, and
   leaves the namespace as it was before the delivery.
   */
  lemma OneDeallocateSuffices(run: seq<State>)
    requires Undisturbed(run) && Last(run).ppc == PDeallocate
    ensures var o, s := run[0].k, Last(run);
            && s.p.r.delivered in s.k.parent && s.k.parent[s.p.r.delivered] == Dead(1)
            && Deallocate(s.k.parent, s.p.r.delivered) == Answer(Serving(o, s.p.bootstrap, s.p.service), KERN_SUCCESS)
            && s.p.r.delivered !in Serving(o, s.p.bootstrap, s.p.service)
  {
    UndisturbedIsCalm(run);
    CalmDeallocates(run[0].k, Last(run));
  }

  lemma CalmDeallocates(o: Kernel, s: State)
    requires Ready(o) && Calm(o, s) && s.ppc == PDeallocate
    ensures s.p.r.delivered in s.k.parent && s.k.parent[s.p.r.delivered] == Dead(1)
    ensures Deallocate(s.k.parent, s.p.r.delivered) == Answer(Serving(o, s.p.bootstrap, s.p.service), KERN_SUCCESS)
    ensures s.p.r.delivered !in Serving(o, s.p.bootstrap, s.p.service)
  {
    hide Ready, ResultsAt, StatusAt, Seen, Queues, ChildSpace, Held, Serving, SendName, Deallocate;
    AtDeallocate(o, NamesOf(s));
  }

  ghost predicate BackToStart(o: Kernel, s: State) {
    && s.k.parent == o.parent && s.k.queues == o.queues && s.k.parentBootstrap == o.parentBootstrap
    && s.p.r.cleanupOk && s.p.r.child.cleanupOk == 1 && s.p.r.child.cleanupDelta == 0 && s.p.r.child.exitCode == 0
    && Ladder(s.p.r) == Verdict(PASS, EXACT_CONTRACT, "")
  }

  lemma CalmEndsWell(o: Kernel, s: State)
    requires Calm(o, s) && Finished(s)
    ensures BackToStart(o, s)
  {
    hide Ladder, Picked, Seen, Calm;
    CalmLadder(o, s);
    CalmKernelAtEnd(o, s);
    CalmRecordAtEnd(o, s);
  }

  lemma CalmKernelAtEnd(o: Kernel, s: State)
    requires Calm(o, s) && s.ppc == Done
    ensures s.k.parent == o.parent && s.k.queues == o.queues && s.k.parentBootstrap == o.parentBootstrap
  {
    hide ResultsAt, StatusAt, Seen, Picked, Held, Serving, Found;
  }

  lemma CalmRecordAtEnd(o: Kernel, s: State)
    requires Calm(o, s) && s.ppc == Done
    ensures s.p.r.cleanupOk && s.p.r.child.cleanupOk == 1 && s.p.r.child.cleanupDelta == 0 && s.p.r.child.exitCode == 0
  {
    hide KernelAt, Seen, Picked;
  }

  lemma CalmLadder(o: Kernel, s: State)
    requires Calm(o, s) && s.ppc == Done
    ensures Ladder(s.p.r) == Verdict(PASS, EXACT_CONTRACT, "")
  {
    assert !BlocksProbe(s.p.r.before) && !BlocksProbe(s.p.r.after) && s.p.r.delivered != MACH_PORT_NULL
           && s.p.r == ResultsAt(o.listing, 20, s.p.r) by {
      hide KernelAt, SendName, Held, Serving, Found, ResultsAt, StatusAt;
    }
    hide Calm, BlocksProbe;
    PassingResults(o.listing, s.p.r);
  }

  lemma PassingResults(listing: bool, r: Results)
    requires r == ResultsAt(listing, 20, r) && !BlocksProbe(r.before) && !BlocksProbe(r.after) && r.delivered != MACH_PORT_NULL
    ensures Ladder(r) == Verdict(PASS, EXACT_CONTRACT, "")
  {
    hide BlocksProbe;
    assert VerifiedRungs(r, r.child) == CleanupRungs(r) == Verdict(PASS, EXACT_CONTRACT, "");
    hide VerifiedRungs, CleanupRungs;
    assert ContractRungs(r, r.child) == UseRungs(r, r.child) == Verdict(PASS, EXACT_CONTRACT, "");
    hide ContractRungs, UseRungs;
  }

  /** Every undisturbed run that finishes ends with both namespaces at their baselines and with PASS. */
  lemma EndsAtBaseline(run: seq<State>)
    requires Undisturbed(run) && Finished(Last(run))
    ensures BackToStart(run[0].k, Last(run))
  {
    hide Ready, Calm, BackToStart, Control, Init, Steps;
    UndisturbedIsCalm(run);
    CalmEndsWell(run[0].k, Last(run));
  }

  /** When the child reports, its namespace is the one it was born with. */
  lemma ChildAtBaseline(run: seq<State>)
    requires Undisturbed(run) && Last(run).cpc in {CWrite, CClose, CExit}
    ensures Last(run).k.child == run[0].k.child && Last(run).c.st.exitCode == 0
  {
    UndisturbedIsCalm(run);
    CalmChildClean(run[0].k, Last(run));
  }

  lemma CalmChildClean(o: Kernel, s: State)
    requires Calm(o, s) && s.cpc in {CWrite, CClose, CExit}
    ensures s.k.child == o.child && s.c.st.exitCode == 0
  {
    hide Queues, ParentSpace, Found, Seen, Picked, ResultsAt;
  }

  /** The verdict of a finished run is PASS exactly if nothing disturbed it. */
  lemma VerdictIsExact(run: seq<State>)
    requires Run(run) && Finished(Last(run))
    ensures Ladder(Last(run).p.r).status == PASS <==> !Last(run).disturbed
  {
    hide Ready, Calm, Control, Marked, Init, Steps, Ladder;
    RunInvariant(run);
    var o, s := run[0].k, Last(run);
    if s.disturbed {
      ControlHasTraffic(s);
      DisturbedDoesNotPass(s);
    } else {
      CalmLadder(o, s);
    }
  }

  // ---- no reliance on timeouts -------------------------------------------------------------------------

  /** Without a disturbance somebody can always move on without one. */
  lemma CalmCanMove(o: Kernel, s: State) returns (t: State)
    requires Ready(o) && Calm(o, s) && Control(s) && !Finished(s)
    ensures Steps(s, t) && t.disturbed == s.disturbed
  {
    WhoMoves(o, s);
    hide *;
    if s.ppc != Done && !ParentBlocked(s) && !ParentWaits(s) {
      var ch := ParentCanMove(s);
      t := IsStep(s, ParentMoves(ch));
    } else {
      var ch := ChildCanMove(s);
      t := IsStep(s, ChildMoves(ch));
    }
  }

  lemma IsStep(s: State, m: Move) returns (t: State)
    requires !m.ChildDies? && Calmly(s, if m.ParentMoves? then ParentNext(s, m.choice) else ChildNext(s, m.choice))
    ensures Steps(s, t) && t.disturbed == s.disturbed
  {
    hide ParentNext, ChildNext;
    t := Next(s, m).value;
    assert Next(s, m) == Some(t);
  }

  lemma WhoMoves(o: Kernel, s: State)
    requires Ready(o) && Calm(o, s) && Control(s) && !Finished(s)
    ensures (s.ppc != Done && !ParentBlocked(s) && !ParentWaits(s)) || (Alive(s) && !ChildBlocked(s) && !ChildWaits(s))
  {
    hide Ready, Control, ResultsAt, StatusAt, Seen, KernelAt, Picked, Awaits;
    NoCircularWait(s);
    var pn, cn := ParentRank(s.ppc), ChildRank(s.cpc);
    if s.cpc == CReceive {
      AtAwaitVerify(o, NamesOf(s), pn);
    }
    if s.ppc == PReceive {
      AtAwait(o, NamesOf(s), cn);
    }
  }

  /** Every undisturbed run can be carried on to its end without any disturbance, timeouts included. */
  lemma {:induction false} CanFinishUndisturbed(run: seq<State>) returns (whole: seq<State>)
    requires Undisturbed(run)
    ensures |whole| >= |run| && whole[..|run|] == run
    ensures Undisturbed(whole) && Finished(Last(whole)) && Ladder(Last(whole).p.r).status == PASS
    decreases Remaining(Last(run))
  {
    hide Ready, Calm, Control, Init, Steps, Finished, Remaining, Ladder;
    UndisturbedIsCalm(run);
    if Finished(Last(run)) {
      whole := run;
      VerdictIsExact(run);
    } else {
      var t := CalmCanMove(run[0].k, Last(run));
      var more := run + [t];
      assert forall i | 0 < i < |more| :: Steps(more[i - 1], more[i]);
      StepsAdvance(Last(run), t);
      NothingBelowZero(t);
      whole := CanFinishUndisturbed(more);
      assert whole[..|run|] == whole[..|more|][..|run|];
    }
  }

  /** There are such runs: from a kernel with only a bootstrap port one leads to PASS. */
  lemma PassIsReachable() returns (run: seq<State>)
    ensures Undisturbed(run) && Finished(Last(run)) && Ladder(Last(run).p.r).status == PASS
  {
    var k := Kernel(map[], map[], map[0 := []], 0, 0, 1, true);
    var s := State(k, PBaseline, ParentVars(NoResults(), MACH_PORT_NULL, MACH_PORT_NULL, Record(Unreported()), 0),
                   Unborn, ChildVars(Untried(), MACH_PORT_NULL, MACH_PORT_NULL, NoSnapshot(), NoSnapshot(), 0),
                   StatusPipe([], 1, false, false, false), 0, false);
    assert Init(s) by {
      hide Record;
    }
    hide Init, Finished, Ladder, Steps;
    run := CanFinishUndisturbed([s]);
  }
}
