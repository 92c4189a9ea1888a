/**
 Undisturbed runs of the send-once probe never get stuck: one of the programs can always move on
 without a disturbance, and so every such run can be carried on to its end and to PASS.
 */
module SendOnceLiveness {
  import opened Pigeonhole
  import opened Baseline
  import opened MachKernel
  import opened KernelSizes
  import opened KernelChoices
  import opened Rendezvous
  import opened Envelope
  import opened SendOnceVerdict
  import opened SendOnceRun
  import opened SendOnceKernel
  import opened SendOnceSafety
  import opened SendOnceTransfer

  function Ranks(s: State): nat {
    ParentRank(s.ppc) + ChildRank(s.cpc)
  }

  /** A step without a disturbance, closer to the end. */
  ghost predicate Further(s: State, n: Option<State>) {
    n.Some? && n.value.disturbed == s.disturbed && Ranks(n.value) > Ranks(s)
  }

  // ---- the namespaces never fill up ----------------------------------------------------------------------

  lemma OneMore(sp: Space, n: Name, e: Entry)
    ensures |sp[n := e]| <= |sp| + 1
  {
    AtMost(sp, n, sp[n := e]);
  }

  lemma StartRoom(o: Kernel, m: Names)
    requires Ready(o)
    ensures |o.parent| < 0x7fff_ff00 && |Held(o, m.bootstrap)| < 0x7fff_ff01
    ensures |o.child| < 0x7fff_ff00 && |Found(o, m.published)| < 0x7fff_ff01
  {
    AtMost(o.parent, m.bootstrap, Held(o, m.bootstrap));
    AtMost(o.child, m.published, Found(o, m.published));
  }

  lemma ParentRoom(o: Kernel, m: Names, pn: nat)
    requires |o.parent| < 0x7fff_ff00 && |Held(o, m.bootstrap)| < 0x7fff_ff01
    ensures |ParentSpace(o, m, pn)| < 0x8000_0000
  {
    hide Held;
    var held, serving := Held(o, m.bootstrap), Serving(o, m.bootstrap, m.service);
    OneMore(held, m.service, Rights(o.next, true, if pn == 4 then 0 else 1));
    if 9 <= pn <= 11 {
      OneMore(serving, m.delivered, SendOnce(o.next + 1));
    }
  }

  lemma ChildRoom(o: Kernel, m: Names, cn: nat)
    requires |o.child| < 0x7fff_ff00 && |Found(o, m.published)| < 0x7fff_ff01
    ensures |ChildSpace(o, m, cn)| < 0x8000_0000
  {
    hide Found;
    var found, cargoed := Found(o, m.published), Cargoed(o, m.published, m.cargo);
    OneMore(found, m.cargo, Rights(o.next + 1, true, 0));
    if 6 <= cn <= 8 {
      OneMore(cargoed, m.once, SendOnce(o.next + 1));
    }
  }

  lemma Room(o: Kernel, s: State)
    requires Ready(o) && Calm(o, s)
    ensures |s.k.parent| < 0x8000_0000 && |s.k.child| < 0x8000_0000
  {
    hide Ready, ParentSpace, ChildSpace, Queues, Picked, ResultsAt, StatusAt, Seen, Held, Found;
    StartRoom(o, NamesOf(s));
    ParentRoom(o, NamesOf(s), ParentRank(s.ppc));
    ChildRoom(o, NamesOf(s), ChildRank(s.cpc));
  }

  // ---- a possible move --------------------------------------------------------------------------------------

  function Naming(name: Name): Choice {
    Choice(name, NoSnapshot(), false)
  }

  function Listed(listing: Snapshot): Choice {
    Choice(0, listing, false)
  }

  lemma NamesChosen(s: State) returns (ch: Choice)
    requires |s.k.child| < 0x8000_0000 && s.cpc in {CGetBootstrap, CBaseline, CAllocate, CCargoType, CExtract}
    ensures !ch.fail
    ensures Further(s, ChildNext(s, ch))
  {
    hide SendName, GetBootstrap, Allocate, Lists, Type, ExtractOnce, BootstrapName;
    if s.cpc == CGetBootstrap {
      var n := BootstrapNameExists(s.k, Child);
      ch := Naming(n);
    } else if s.cpc == CBaseline {
      var l := ListsExists(s.k, Child);
      ch := Listed(l);
    } else {
      var n := FreeNameExists(s.k.child);
      ch := Naming(n);
    }
  }

  lemma InnerMoves(s: State, ch: Choice)
    requires s.cpc in {CType, CRefs, CSend, CTypeSent, CRefsSent, CCargoTypeAfter, CDropOnce, CDestroy, CReport, CExit}
    ensures Further(s, ChildNext(s, ch))
  {
    hide *;
    if s.cpc in {CType, CRefs, CSend, CTypeSent, CRefsSent} {
      LooksOn(s, ch);
    } else {
      CleansOn(s, ch);
    }
  }

  lemma LooksOn(s: State, ch: Choice)
    requires s.cpc == CType || s.cpc == CRefs || s.cpc == CSend || s.cpc == CTypeSent || s.cpc == CRefsSent
    ensures Further(s, ChildNext(s, ch))
  {
    hide Type, SendOnceRefs, Send;
  }

  lemma CleansOn(s: State, ch: Choice)
    requires s.cpc == CCargoTypeAfter || s.cpc == CDropOnce || s.cpc == CDestroy || s.cpc == CReport || s.cpc == CExit
    ensures Further(s, ChildNext(s, ch))
  {
    hide Type, Deallocate, Destroy, Exit;
  }

  lemma CleanupMoves(s: State) returns (ch: Choice)
    requires s.cpc == CBaselineAgain || s.cpc == CDrop
    ensures !ch.fail
    ensures Further(s, ChildNext(s, ch))
  {
    hide Deallocate, Lists, Matches, ToInt, ExitCode;
    var l := ListsExists(s.k, Child);
    ch := Listed(l);
  }

  lemma ReceiveMoves(o: Kernel, s: State, ch: Choice)
    requires Ready(o) && Calm(o, s) && (s.cpc == CReceiveAgain || (s.cpc == CReceive && ParentRank(s.ppc) > 11))
    ensures Further(s, ChildNext(s, ch))
  {
    hide Ready, Picked, KernelAt, Seen, ResultsAt, Receive, Awaits;
    AtAwaitVerify(o, NamesOf(s), ParentRank(s.ppc), ChildRank(s.cpc));
  }

  lemma ChildCanMove(o: Kernel, s: State) returns (ch: Choice)
    requires Ready(o) && Calm(o, s) && s.cpc != Unborn && s.cpc != Gone
    requires s.cpc == CReceive ==> ParentRank(s.ppc) > 11
    ensures Further(s, ChildNext(s, ch))
  {
    hide Ready, Calm, Further, ChildNext;
    Room(o, s);
    ch := Naming(0);
    match s.cpc
    case CGetBootstrap | CBaseline | CAllocate | CCargoType | CExtract => ch := NamesChosen(s);
    case CReceive | CReceiveAgain => ReceiveMoves(o, s, ch);
    case CBaselineAgain | CDrop => ch := CleanupMoves(s);
    case _ => InnerMoves(s, ch);
  }

  lemma ParentNamesChosen(s: State) returns (ch: Choice)
    requires |s.k.parent| < 0x8000_0000 && s.ppc in {PBaseline, PPipe, PGetBootstrap, PAllocate, PInsert}
    ensures !ch.fail
    ensures Further(s, ParentNext(s, ch))
  {
    hide SendName, GetBootstrap, Allocate, Lists, MakeSend, BootstrapName;
    if s.ppc == PBaseline {
      var l := ListsExists(s.k, Parent);
      ch := Listed(l);
    } else if s.ppc == PGetBootstrap {
      var n := BootstrapNameExists(s.k, Parent);
      ch := Naming(n);
    } else {
      var n := FreeNameExists(s.k.parent);
      ch := Naming(n);
    }
  }

  lemma ParentForks(s: State, ch: Choice)
    requires s.ppc in {PPublish, PFork, PRestore} && (s.ppc == PFork ==> s.cpc == Unborn) && !ch.fail
    ensures Further(s, ParentNext(s, ch))
  {
    hide SetBootstrap;
  }

  lemma ParentReceives(o: Kernel, s: State) returns (ch: Choice)
    requires Ready(o) && Calm(o, s) && s.ppc == PReceive && ChildRank(s.cpc) > 8 && |s.k.parent| < 0x8000_0000
    ensures Further(s, ParentNext(s, ch))
  {
    hide Ready, Picked, KernelAt, Seen, StatusAt, Receive, Awaits, DeliveryName;
    AtAwait(o, NamesOf(s), ChildRank(s.cpc));
    var n := DeliveryNameExists(s.k, Parent, DescriptorMessage(o).cargo);
    ch := Naming(n);
  }

  lemma ParentInner(s: State, ch: Choice)
    requires s.ppc in {PType, PRefs, PFirst, PTypeAfter, PRefsAfter, PSecond, PDeallocate, PDestroy}
    ensures Further(s, ParentNext(s, ch))
  {
    hide *;
    if s.ppc in {PType, PRefs, PDeallocate, PDestroy} {
      ParentLooks(s, ch);
    } else {
      ParentUses(s, ch);
    }
  }

  lemma ParentLooks(s: State, ch: Choice)
    requires s.ppc == PType || s.ppc == PRefs || s.ppc == PDeallocate || s.ppc == PDestroy
    ensures Further(s, ParentNext(s, ch))
  {
    hide Type, SendOnceRefs, Deallocate, Destroy;
  }

  lemma ParentUses(s: State, ch: Choice)
    requires s.ppc == PFirst || s.ppc == PTypeAfter || s.ppc == PRefsAfter || s.ppc == PSecond
    ensures Further(s, ParentNext(s, ch))
  {
    hide Type, SendOnceRefs, Send, Uses;
  }

  lemma ParentWaits(o: Kernel, s: State, ch: Choice)
    requires !ch.fail && Calm(o, s) && ((s.ppc == PRead && ChildRank(s.cpc) > 18) || (s.ppc == PWait && s.cpc == Gone))
    ensures Further(s, ParentNext(s, ch))
  {
    hide Picked, KernelAt, Seen, StatusAt, ResultsAt;
  }

  lemma ParentEnds(s: State) returns (ch: Choice)
    requires s.ppc == PDrop || s.ppc == PBaselineAgain
    ensures !ch.fail
    ensures Further(s, ParentNext(s, ch))
  {
    hide Deallocate, Lists, Matches;
    var l := ListsExists(s.k, Parent);
    ch := Listed(l);
  }

  lemma ParentCanMove(o: Kernel, s: State) returns (ch: Choice)
    requires Ready(o) && Calm(o, s) && s.ppc != Done
    requires s.ppc == PFork ==> s.cpc == Unborn
    requires s.ppc == PReceive ==> ChildRank(s.cpc) > 8
    requires s.ppc == PRead ==> ChildRank(s.cpc) > 18
    requires s.ppc == PWait ==> s.cpc == Gone
    ensures Further(s, ParentNext(s, ch))
  {
    hide Ready, Calm, Further, ParentNext;
    Room(o, s);
    ch := Naming(0);
    match s.ppc
    case PBaseline | PPipe | PGetBootstrap | PAllocate | PInsert => ch := ParentNamesChosen(s);
    case PPublish | PFork | PRestore => ParentForks(s, ch);
    case PReceive => ch := ParentReceives(o, s);
    case PRead | PWait => ParentWaits(o, s, ch);
    case PDrop | PBaselineAgain => ch := ParentEnds(s);
    case _ => ParentInner(s, ch);
  }

  /** Who waits for whom is settled by where the two are; it is never a circle. */
  lemma CalmCanMove(o: Kernel, s: State) returns (t: State)
    requires Ready(o) && Calm(o, s) && s.ppc != Done
    ensures Steps(s, t) && t.disturbed == s.disturbed && Ranks(t) > Ranks(s)
  {
    hide Ready, Calm, ParentNext, ChildNext, Further, Steps, Ranks;
    Places(o, s);
    var cn := ChildRank(s.cpc);
    if (s.ppc == PReceive && cn <= 8) || (s.ppc == PRead && cn <= 18) || (s.ppc == PWait && s.cpc != Gone) {
      var ch := ChildCanMove(o, s);
      t := IsStep(s, ChildMoves(ch));
    } else {
      var ch := ParentCanMove(o, s);
      t := IsStep(s, ParentMoves(ch));
    }
  }

  lemma IsStep(s: State, m: Move) returns (t: State)
    requires Further(s, Next(s, m))
    ensures Steps(s, t) && t.disturbed == s.disturbed && Ranks(t) > Ranks(s)
  {
    hide Next, Ranks;
    t := Next(s, m).value;
    assert Next(s, m) == Some(t);
  }

  lemma Places(o: Kernel, s: State)
    requires Calm(o, s)
    ensures InStep(ParentRank(s.ppc), ChildRank(s.cpc))
    ensures s.ppc == PFork ==> s.cpc == Unborn
  {
    hide Picked, KernelAt, Seen, StatusAt, ResultsAt;
  }

  // ---- whole runs ---------------------------------------------------------------------------------------------

  /** Every undisturbed run can be carried on, without any disturbance, to its end and to PASS. */
  lemma {:induction false} CanFinishUndisturbed(run: seq<State>) returns (whole: seq<State>)
    requires Undisturbed(run)
    ensures |whole| >= |run| && whole[..|run|] == run
    ensures Undisturbed(whole) && Last(whole).ppc == Done && Ladder(Last(whole).p.r).status == PASS
    decreases 41 - Ranks(Last(run))
  {
    hide Ready, Calm, Init, Steps, Ranks, Ladder;
    UndisturbedIsCalm(run);
    if Last(run).ppc == Done {
      whole := run;
      EndsAtBaseline(run);
    } else {
      var t := CalmCanMove(run[0].k, Last(run));
      var more := run + [t];
      assert forall i | 0 < i < |more| :: Steps(more[i - 1], more[i]);
      RanksBound(t);
      whole := CanFinishUndisturbed(more);
      assert whole[..|run|] == whole[..|more|][..|run|];
    }
  }

  lemma RanksBound(s: State)
    ensures Ranks(s) <= 41
  {
  }

  /** There are such runs. */
  lemma PassIsReachable() returns (run: seq<State>)
    ensures Undisturbed(run) && Last(run).ppc == Done && Ladder(Last(run).p.r).status == PASS
  {
    var k := Kernel(map[], map[], map[0 := []], 0, 0, 1, true);
    var s := State(k, PBaseline, ParentVars(NoResults(), MACH_PORT_NULL, MACH_PORT_NULL), Unborn,
                   ChildVars(Untried(), MACH_PORT_NULL, MACH_PORT_NULL, MACH_PORT_NULL, NoSnapshot(), NoSnapshot()), None, false);
    assert Init(s);
    hide Init, Ladder, Steps;
    run := CanFinishUndisturbed([s]);
  }
}
