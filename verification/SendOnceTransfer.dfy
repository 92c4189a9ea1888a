/**
 The promises of the send-once probe over whole undisturbed runs: one send-once right in one place
 until its first use, one message through it, a second use that changes nothing, and PASS.
 */
module SendOnceTransfer {
  import opened Baseline
  import opened MachKernel
  import opened Rendezvous
  import opened Envelope
  import opened SendOnceVerdict
  import opened SendOnceRun
  import opened SendOnceKernel
  import opened SendOnceSafety

  ghost predicate Undisturbed(run: seq<State>) {
    Run(run) && forall i | 0 <= i < |run| :: !run[i].disturbed
  }

  lemma {:induction false} UndisturbedIsCalm(run: seq<State>)
    requires Undisturbed(run)
    ensures Ready(run[0].k) && Calm(run[0].k, Last(run))
  {
    hide Ready, Calm, Steps, Init;
    if |run| == 1 {
      Begins(run[0]);
    } else {
      var s, t := run[|run| - 2], run[|run| - 1];
      assert Steps(s, t);
      UndisturbedIsCalm(run[..|run| - 1]);
      CalmSteps(run[0].k, s, t);
    }
  }

  lemma Begins(s: State)
    requires Init(s)
    ensures Ready(s.k) && Calm(s.k, s)
  {
    hide Ready, Calm;
    InitCalm(s);
  }

  lemma CalmSteps(o: Kernel, s: State, t: State)
    requires Ready(o) && Calm(o, s) && Steps(s, t) && !t.disturbed
    ensures Calm(o, t)
  {
    hide Ready, Calm, Next;
    var m :| Next(s, m) == Some(t);
    CalmStep(o, s, m);
  }

  // ---- one right, one place ----------------------------------------------------------------------------

  /** Where the send-once right is from its extraction to its first use. */
  function OncePlace(o: Kernel, s: State): Place {
    if ChildRank(s.cpc) <= 8 then InSpace(Child, s.c.once)
    else if ParentRank(s.ppc) <= 8 then InMessage(o.next, 0)
    else InSpace(Parent, s.p.r.delivered)
  }

  lemma NoneAtStart(o: Kernel)
    requires Ready(o)
    ensures SendOnceRightsIn(o.parent, Parent, o.next + 1) == {} && SendOnceRightsIn(o.child, Child, o.next + 1) == {}
    ensures Carrying(o.queues, CarriedSendOnce(o.next + 1)) == {}
  {
    BelowMore(o.parent, o.next);
    NoneIn(o.parent, Parent, o.next + 1);
    NoneIn(o.child, Child, o.next + 1);
    assert CarryBelow(o.queues, o.next + 1);
    NoneCarried(o.queues, o.next + 1);
  }

  lemma NoneHeld(o: Kernel, m: Names)
    requires Ready(o) && SendName(o.parent, o.parentBootstrap, m.bootstrap)
    ensures SendOnceRightsIn(Held(o, m.bootstrap), Parent, o.next + 1) == {}
  {
    HeldFacts(o, m.bootstrap);
    BelowMore(Held(o, m.bootstrap), o.next);
    NoneIn(Held(o, m.bootstrap), Parent, o.next + 1);
  }

  lemma NoneFound(o: Kernel, m: Names)
    requires Ready(o) && SendName(o.child, o.next, m.published)
    ensures SendOnceRightsIn(Found(o, m.published), Child, o.next + 1) == {}
  {
    FoundFacts(o, m.published);
    NoneIn(Found(o, m.published), Child, o.next + 1);
  }

  lemma NameIsNew(o: Kernel, m: Names, pn: nat, cn: nat)
    requires Picked(o, m, pn, cn)
    ensures pn > 3 ==> m.service !in Held(o, m.bootstrap)
    ensures pn > 8 ==> m.delivered !in Held(o, m.bootstrap)[m.service := Rights(o.next, true, 1)]
    ensures cn > 3 ==> m.cargo !in Found(o, m.published)
    ensures cn > 5 ==> m.once !in Found(o, m.published)[m.cargo := Rights(o.next + 1, true, 0)]
  {
    hide SendName, Held, Found;
  }

  lemma OnceInParent(o: Kernel, m: Names, pn: nat, cn: nat)
    requires Ready(o) && Picked(o, m, pn, cn)
    ensures SendOnceRightsIn(ParentSpace(o, m, pn), Parent, o.next + 1) == if 9 <= pn <= 11 then {InSpace(Parent, m.delivered)} else {}
  {
    hide Ready, SendName, FreeName, Held, SendOnceRightsIn;
    var port, held := o.next + 1, Held(o, m.bootstrap);
    if pn <= 2 || pn > 19 {
      NoneAtStart(o);
    } else {
      NoneHeld(o, m);
      if 4 <= pn <= 18 {
        NameIsNew(o, m, pn, cn);
        var service := Rights(o.next, true, if pn == 4 then 0 else 1);
        FirstOnceIn(held, Parent, port, m.service, service);
        if 9 <= pn <= 11 {
          FirstOnceIn(held[m.service := service], Parent, port, m.delivered, SendOnce(port));
        }
      }
    }
  }

  lemma OnceInChild(o: Kernel, m: Names, pn: nat, cn: nat)
    requires Ready(o) && Picked(o, m, pn, cn)
    ensures SendOnceRightsIn(ChildSpace(o, m, cn), Child, o.next + 1) == if 6 <= cn <= 8 then {InSpace(Child, m.once)} else {}
  {
    hide Ready, SendName, FreeName, Found, SendOnceRightsIn;
    var port, found := o.next + 1, Found(o, m.published);
    if cn <= 1 || 18 <= cn <= 19 {
      NoneAtStart(o);
    } else if cn > 19 {
      NoneIn(map[], Child, port);
    } else {
      NoneFound(o, m);
      if 4 <= cn <= 15 {
        NameIsNew(o, m, pn, cn);
        var cargo := Rights(port, true, 0);
        FirstOnceIn(found, Child, port, m.cargo, cargo);
        if 6 <= cn <= 8 {
          FirstOnceIn(found[m.cargo := cargo], Child, port, m.once, SendOnce(port));
        }
      }
    }
  }

  lemma OnceInServiceQueue(o: Kernel, sent: bool)
    requires o.next !in o.queues && Carrying(o.queues, CarriedSendOnce(o.next + 1)) == {}
    ensures Carrying(o.queues[o.next := if sent then [DescriptorMessage(o)] else []], CarriedSendOnce(o.next + 1))
              == if sent then {InMessage(o.next, 0)} else {}
  {
    hide Carrying;
    NewQueue(o.queues, o.next, DescriptorMessage(o), CarriedSendOnce(o.next + 1));
    NewEmptyQueue(o.queues, o.next, CarriedSendOnce(o.next + 1));
  }

  lemma OnceInQueues(o: Kernel, pn: nat, cn: nat)
    requires Ready(o) && InStep(pn, cn)
    ensures Carrying(Queues(o, pn, cn), CarriedSendOnce(o.next + 1)) == if cn > 8 && pn <= 8 then {InMessage(o.next, 0)} else {}
  {
    hide Ready, Carrying;
    var port, right := o.next + 1, CarriedSendOnce(o.next + 1);
    FreshPorts(o);
    NoneAtStart(o);
    if 4 <= pn <= 18 {
      OnceInServiceQueue(o, cn > 8 && pn <= 8);
    }
    var q := if 4 <= pn <= 18 then o.queues[o.next := if cn > 8 && pn <= 8 then [DescriptorMessage(o)] else []] else o.queues;
    if 4 <= cn <= 15 {
      if pn > 11 && cn <= 11 {
        NewQueue(q, port, VerifyMessage(), right);
      } else {
        NewEmptyQueue(q, port, right);
      }
    }
  }

  /** The right exists from its extraction to its first use. */
  predicate Unused(s: State) {
    ChildRank(s.cpc) > 5 && ParentRank(s.ppc) <= 11
  }

  lemma CalmHasOneRight(o: Kernel, s: State)
    requires Ready(o) && Calm(o, s)
    ensures SendOnceRights(s.k, o.next + 1) == if Unused(s) then {OncePlace(o, s)} else {}
  {
    hide Ready, Picked, ResultsAt, StatusAt, Seen, Carrying, SendOnceRightsIn, ParentSpace, ChildSpace, Queues;
    var pn, cn, m := ParentRank(s.ppc), ChildRank(s.cpc), NamesOf(s);
    OnceInParent(o, m, pn, cn);
    OnceInChild(o, m, pn, cn);
    OnceInQueues(o, pn, cn);
  }

  /**
   From its extraction to its first use there is exactly one send-once right for the cargo port, in
   one place: the child, the message or the parent. Before and after there is none.
   */
  lemma OneSendOnceRight(run: seq<State>)
    requires Undisturbed(run)
    ensures var o, s := run[0].k, Last(run);
            SendOnceRights(s.k, o.next + 1) == if Unused(s) then {OncePlace(o, s)} else {}
  {
    hide Ready, Calm, Init, Steps, SendOnceRights, Unused;
    UndisturbedIsCalm(run);
    CalmHasOneRight(run[0].k, Last(run));
  }

  // ---- one message through it -------------------------------------------------------------------------

  /** While the cargo port lives its queue holds the one verification message between use and receipt, else nothing. */
  lemma OneVerification(run: seq<State>)
    requires Undisturbed(run)
    ensures var o, s := run[0].k, Last(run);
            && (o.next + 1 in s.k.queues <==> 4 <= ChildRank(s.cpc) <= 15)
            && (o.next + 1 in s.k.queues ==>
                  s.k.queues[o.next + 1]
                    == if ParentRank(s.ppc) > 11 && ChildRank(s.cpc) <= 11 then [VerifyMessage()] else [])
            && (ChildRank(s.cpc) > 12 ==> s.c.st.mrFirst == MACH_MSG_SUCCESS && s.c.st.mrSecond == MACH_RCV_TIMED_OUT)
  {
    UndisturbedIsCalm(run);
    CalmVerification(run[0].k, Last(run));
  }

  lemma CargoQueue(o: Kernel, pn: nat, cn: nat)
    requires o.next + 1 !in o.queues
    ensures o.next + 1 in Queues(o, pn, cn) <==> 4 <= cn <= 15
    ensures 4 <= cn <= 15 ==> Queues(o, pn, cn)[o.next + 1] == if pn > 11 && cn <= 11 then [VerifyMessage()] else []
  {
  }

  lemma CalmVerification(o: Kernel, s: State)
    requires Ready(o) && Calm(o, s)
    ensures o.next + 1 in s.k.queues <==> 4 <= ChildRank(s.cpc) <= 15
    ensures o.next + 1 in s.k.queues ==>
              s.k.queues[o.next + 1] == if ParentRank(s.ppc) > 11 && ChildRank(s.cpc) <= 11 then [VerifyMessage()] else []
    ensures ChildRank(s.cpc) > 12 ==> s.c.st.mrFirst == MACH_MSG_SUCCESS && s.c.st.mrSecond == MACH_RCV_TIMED_OUT
  {
    hide Ready, Picked, Seen, ResultsAt, ParentSpace, ChildSpace, Queues;
    FreshPorts(o);
    CargoQueue(o, ParentRank(s.ppc), ChildRank(s.cpc));
  }

  /** Wherever the child is by then, the second use is refused and no namespace or queue changes. */
  lemma SecondUseChangesNothing(run: seq<State>, ch: Choice)
    requires Undisturbed(run) && Last(run).ppc == PSecond
    ensures var s := Last(run); var n := ParentNext(s, ch);
            n.Some? && n.value.k == s.k && n.value.p.r == s.p.r.(mrSecond := MACH_SEND_INVALID_DEST)
  {
    UndisturbedIsCalm(run);
    CalmSecondUse(run[0].k, Last(run), ch);
  }

  lemma CalmSecondUse(o: Kernel, s: State, ch: Choice)
    requires Ready(o) && Calm(o, s) && s.ppc == PSecond
    ensures var n := ParentNext(s, ch);
            n.Some? && n.value.k == s.k && n.value.p.r == s.p.r.(mrSecond := MACH_SEND_INVALID_DEST)
  {
    hide Ready, Picked, KernelAt, Seen, StatusAt, Send;
    AtUsed(o, NamesOf(s), 14, ChildRank(s.cpc));
  }

  // ---- the end --------------------------------------------------------------------------------------------------

  lemma PassingResults(listing: bool, r: Results)
    requires r == ResultsAt(listing, 21, r) && !BlocksProbe(r.before) && !BlocksProbe(r.after) && r.delivered != MACH_PORT_NULL
    ensures Ladder(r) == Verdict(PASS, EXACT_CONTRACT, "")
  {
    hide BlocksProbe;
    assert CleanupRungs(r) == Verdict(PASS, EXACT_CONTRACT, "");
    hide CleanupRungs;
    assert ReuseRungs(r, r.child) == Verdict(PASS, EXACT_CONTRACT, "");
    hide ReuseRungs;
    assert ReceiverRungs(r, r.child) == Verdict(PASS, EXACT_CONTRACT, "");
    hide ReceiverRungs;
    assert SentRungs(r, r.child) == Verdict(PASS, EXACT_CONTRACT, "");
    hide SentRungs;
    assert CargoRungs(r, r.child) == OnceRungs(r, r.child) == Verdict(PASS, EXACT_CONTRACT, "");
    hide CargoRungs, OnceRungs;
  }

  lemma CalmLadder(o: Kernel, s: State)
    requires Calm(o, s) && s.ppc == Done
    ensures Ladder(s.p.r) == Verdict(PASS, EXACT_CONTRACT, "")
  {
    assert !BlocksProbe(s.p.r.before) && !BlocksProbe(s.p.r.after) && s.p.r.delivered != MACH_PORT_NULL
           && s.p.r == ResultsAt(o.listing, 21, s.p.r) by {
      hide KernelAt, SendName, Held, Serving, Found, Cargoed, ResultsAt, StatusAt;
    }
    hide Calm, BlocksProbe;
    PassingResults(o.listing, s.p.r);
  }

  lemma CalmKernelAtEnd(o: Kernel, s: State)
    requires Calm(o, s) && s.ppc == Done
    ensures s.k.parent == o.parent && s.k.queues == o.queues && s.k.parentBootstrap == o.parentBootstrap
  {
    hide ResultsAt, StatusAt, Seen, Picked, Held, Serving, Found, Cargoed;
  }

  /** Every undisturbed run that reaches its end is back at the start, and says PASS. */
  lemma EndsAtBaseline(run: seq<State>)
    requires Undisturbed(run) && Last(run).ppc == Done
    ensures var o, s := run[0].k, Last(run);
            && s.k.parent == o.parent && s.k.queues == o.queues && s.k.parentBootstrap == o.parentBootstrap
            && Ladder(s.p.r) == Verdict(PASS, EXACT_CONTRACT, "")
  {
    hide Ready, Calm, Init, Steps, Ladder;
    UndisturbedIsCalm(run);
    CalmLadder(run[0].k, Last(run));
    CalmKernelAtEnd(run[0].k, Last(run));
  }

  /** When the child reports, its namespace is the one it was born with. */
  lemma ChildAtBaseline(run: seq<State>)
    requires Undisturbed(run) && (Last(run).cpc == CReport || Last(run).cpc == CExit)
    ensures Last(run).k.child == run[0].k.child && Last(run).c.st.exitCode == 0
  {
    hide Ready, Calm, Init, Steps;
    UndisturbedIsCalm(run);
    CalmChildClean(run[0].k, Last(run));
  }

  lemma CalmChildClean(o: Kernel, s: State)
    requires Calm(o, s) && (s.cpc == CReport || s.cpc == CExit)
    ensures s.k.child == o.child && s.c.st.exitCode == 0
  {
    hide Queues, ParentSpace, Found, Cargoed, Seen, Picked, ResultsAt;
  }
}
