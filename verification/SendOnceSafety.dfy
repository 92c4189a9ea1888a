/**
 In an undisturbed run of the send-once probe every interleaving goes through the same states: the
 kernel, the records and the names are functions of where the two programs are.
 */
module SendOnceSafety {
  import opened Baseline
  import opened MachKernel
  import opened Rendezvous
  import opened SendOnceVerdict
  import opened SendOnceRun
  import opened SendOnceKernel

  function NamesOf(s: State): Names {
    Names(s.p.bootstrap, s.p.service, s.p.r.delivered, s.c.service, s.c.cargo, s.c.once)
  }

  function KrNames(listing: bool): Word {
    if listing then KERN_SUCCESS else KERN_NOT_SUPPORTED
  }

  /** The result of a call: as the contract says once it was made. */
  function Once(made: bool, result: Word, untried: Word): Word {
    if made then result else untried
  }

  function After(passed: bool): Word {
    Once(passed, KERN_SUCCESS, KERN_FAILURE)
  }

  /** The child's record when it stands at a place. */
  function StatusAt(listing: bool, cn: nat): ChildStatus {
    ChildStatus(
      if cn > 16 then 1 else 0, 0, if cn > 17 then 0 else 1,
      Once(cn > 2, KrNames(listing), KERN_FAILURE), After(cn > 1), After(cn > 3), After(cn > 4), After(cn > 5),
      After(cn > 6), After(cn > 7), Once(cn > 8, MACH_MSG_SUCCESS, MACH_SEND_INVALID_DEST),
      Once(cn > 9, KERN_INVALID_NAME, KERN_FAILURE), Once(cn > 10, KERN_INVALID_NAME, KERN_FAILURE),
      Once(cn > 11, MACH_MSG_SUCCESS, MACH_RCV_INVALID_NAME), Once(cn > 12, MACH_RCV_TIMED_OUT, MACH_RCV_INVALID_NAME),
      After(cn > 13), Once(cn > 14, KERN_INVALID_NAME, KERN_FAILURE), After(cn > 15),
      Once(cn > 16, KrNames(listing), KERN_FAILURE),
      Once(cn > 4, TYPE_RECEIVE, 0), Once(cn > 6, TYPE_SEND_ONCE, 0), 0, Once(cn > 13, TYPE_RECEIVE, 0),
      Once(cn > 7, 1, 0), 0, Once(cn > 11, VERIFY_ID, 0), 0)
  }

  /** The parent's results likewise; the snapshots and the delivered name are its own. */
  function ResultsAt(listing: bool, pn: nat, r: Results): Results {
    Results(
      r.before, r.after, pn > 20,
      pn > 1, After(pn > 2), After(pn > 3), After(pn > 4), After(pn > 5), pn > 6, After(pn > 7),
      Once(pn > 8, MACH_MSG_SUCCESS, MACH_RCV_INVALID_NAME), Once(pn > 8, 1, 0), if pn > 8 then r.delivered else MACH_PORT_NULL,
      After(pn > 9), Once(pn > 9, TYPE_SEND_ONCE, 0), After(pn > 10), Once(pn > 10, 1, 0),
      Once(pn > 11, MACH_MSG_SUCCESS, MACH_SEND_INVALID_DEST),
      Once(pn > 12, KERN_INVALID_NAME, KERN_FAILURE), 0, Once(pn > 13, KERN_INVALID_NAME, KERN_FAILURE), 0,
      MACH_SEND_INVALID_DEST,
      if pn > 15 then StatusAt(listing, 18) else Unreported(), pn > 15, pn > 16,
      Once(pn > 17, KERN_INVALID_NAME, KERN_FAILURE), After(pn > 18), After(pn > 19))
  }

  /** The snapshots taken so far list the namespaces at the start. */
  ghost predicate Seen(o: Kernel, s: State) {
    var pn, cn := ParentRank(s.ppc), ChildRank(s.cpc);
    && (pn > 0 ==> Listing(o.parent, o.listing, s.p.r.before))
    && (pn > 20 ==> Listing(o.parent, o.listing, s.p.r.after))
    && (cn > 2 ==> Listing(Found(o, s.c.service), o.listing, s.c.before))
    && (cn > 16 ==> Listing(Found(o, s.c.service), o.listing, s.c.after))
  }

  ghost predicate Calm(o: Kernel, s: State) {
    var pn, cn, m := ParentRank(s.ppc), ChildRank(s.cpc), NamesOf(s);
    && InStep(pn, cn)
    && s.report == (if cn > 18 then Some(StatusAt(o.listing, 18)) else None)
    && s.k == KernelAt(o, m, pn, cn) && Picked(o, m, pn, cn)
    && s.c.st == StatusAt(o.listing, cn)
    && s.p.r == ResultsAt(o.listing, pn, s.p.r)
    && Seen(o, s)
  }

  lemma InitCalm(s: State)
    requires Init(s)
    ensures Calm(s.k, s)
  {
  }

  ghost predicate StaysCalm(o: Kernel, n: Option<State>) {
    n.Some? && !n.value.disturbed ==> Calm(o, n.value)
  }

  lemma ListingKr(sp: Space, supported: bool, l: Snapshot)
    requires Listing(sp, supported, l)
    ensures l.kr == KrNames(supported)
  {
  }

  lemma CleanListing(o: Kernel, s: State, l: Snapshot)
    requires Calm(o, s) && s.cpc == CBaselineAgain && Lists(s.k, Child, l)
    ensures Listing(Found(o, s.c.service), o.listing, l) && Matches(s.c.before, l) && |l.names| == |s.c.before.names|
    ensures l.kr == KrNames(o.listing)
  {
    hide Picked, Found, Held, Serving, Matches, Listing;
    var found := Found(o, s.c.service);
    assert s.k.child == found;
    ListingKr(found, o.listing, l);
    ListingsMatch(found, o.listing, s.c.before, l);
  }

  /** After its record is written nothing depends on how the child ends. */
  lemma LastPlaces(listing: bool)
    ensures StatusAt(listing, 18) == StatusAt(listing, 19) == StatusAt(listing, 20)
  {
  }

  // ---- the child's steps ------------------------------------------------------------------------------------

  lemma CalmFind(o: Kernel, s: State, ch: Choice)
    requires Ready(o) && Calm(o, s) && s.cpc == CGetBootstrap
    ensures StaysCalm(o, ChildArrive(s, ch))
  {
    hide ResultsAt, KernelAt, Picked, Found, Held, Serving, Cargoed, Ready, Listing, GetBootstrap, BootstrapName, Lists;
    StillPicked(o, NamesOf(s), ParentRank(s.ppc), ChildRank(s.cpc));
    if BootstrapName(s.k, Child, ch.name) {
      AtFind(o, NamesOf(s), ParentRank(s.ppc), ch.name);
      assert NamesOf(ChildArrive(s, ch).value) == NamesOf(s).(published := ch.name);
    }
  }

  lemma CalmBaseline(o: Kernel, s: State, ch: Choice)
    requires Ready(o) && Calm(o, s) && s.cpc == CBaseline
    ensures StaysCalm(o, ChildArrive(s, ch))
  {
    hide KernelAt, Picked, Found, Held, Serving, Cargoed, Ready, Listing, ChildSpace, ResultsAt, GetBootstrap, BootstrapName;
    var pn, m := ParentRank(s.ppc), NamesOf(s);
    StillPicked(o, m, pn, 2);
    ChildPart(o, m, pn, 2);
    SameView(o, m, pn, 2);
    if Lists(s.k, Child, ch.listing) {
      ListingKr(s.k.child, o.listing, ch.listing);
    }
  }

  lemma CalmAllocate(o: Kernel, s: State, ch: Choice)
    requires Ready(o) && Calm(o, s) && s.cpc == CAllocate
    ensures StaysCalm(o, ChildCreate(s, ch))
  {
    hide ResultsAt, KernelAt, Picked, Found, Held, Serving, Cargoed, Ready, Listing, Allocate, Type, ExtractOnce;
    StillPicked(o, NamesOf(s), ParentRank(s.ppc), ChildRank(s.cpc));
    if FreeName(s.k.child, ch.name) {
      AtAllocateCargo(o, NamesOf(s), ParentRank(s.ppc), ch.name);
      if !ch.fail {
        assert NamesOf(ChildCreate(s, ch).value) == NamesOf(s).(cargo := ch.name);
      }
    }
  }

  lemma CalmCargoType(o: Kernel, s: State, ch: Choice)
    requires Ready(o) && Calm(o, s) && s.cpc == CCargoType
    ensures StaysCalm(o, ChildCreate(s, ch))
  {
    hide KernelAt, Picked, Found, Held, Serving, Cargoed, Ready, Listing, ChildSpace, ResultsAt, Allocate, Type, ExtractOnce;
    StillPicked(o, NamesOf(s), ParentRank(s.ppc), ChildRank(s.cpc));
    ChildPart(o, NamesOf(s), ParentRank(s.ppc), ChildRank(s.cpc));
    AtCargo(o, NamesOf(s), 4);
    SameView(o, NamesOf(s), ParentRank(s.ppc), ChildRank(s.cpc));
  }

  lemma CalmExtract(o: Kernel, s: State, ch: Choice)
    requires Ready(o) && Calm(o, s) && s.cpc == CExtract
    ensures StaysCalm(o, ChildCreate(s, ch))
  {
    hide ResultsAt, KernelAt, Picked, Found, Held, Serving, Cargoed, Ready, Listing, Allocate, Type, ExtractOnce;
    StillPicked(o, NamesOf(s), ParentRank(s.ppc), ChildRank(s.cpc));
    if FreeName(s.k.child, ch.name) {
      AtExtract(o, NamesOf(s), ParentRank(s.ppc), ch.name);
      assert NamesOf(ChildCreate(s, ch).value) == NamesOf(s).(once := ch.name);
    }
  }

  lemma CalmInspect(o: Kernel, s: State, ch: Choice)
    requires Ready(o) && Calm(o, s) && (s.cpc == CType || s.cpc == CRefs)
    ensures StaysCalm(o, ChildInspect(s, ch))
  {
    hide KernelAt, Picked, Found, Held, Serving, Cargoed, Ready, Listing, ChildSpace, ResultsAt, Type, SendOnceRefs;
    StillPicked(o, NamesOf(s), ParentRank(s.ppc), ChildRank(s.cpc));
    ChildPart(o, NamesOf(s), ParentRank(s.ppc), ChildRank(s.cpc));
    AtInspectOnce(o, NamesOf(s), ChildRank(s.cpc));
    SameView(o, NamesOf(s), ParentRank(s.ppc), ChildRank(s.cpc));
  }

  lemma CalmSend(o: Kernel, s: State, ch: Choice)
    requires Ready(o) && Calm(o, s) && s.cpc == CSend
    ensures StaysCalm(o, ChildSend(s, ch))
  {
    hide ResultsAt, KernelAt, Picked, Found, Held, Serving, Cargoed, Ready, Listing, Send;
    StillPicked(o, NamesOf(s), ParentRank(s.ppc), ChildRank(s.cpc));
    AtSend(o, NamesOf(s), ParentRank(s.ppc));
  }

  lemma CalmInspectSent(o: Kernel, s: State, ch: Choice)
    requires Ready(o) && Calm(o, s) && (s.cpc == CTypeSent || s.cpc == CRefsSent)
    ensures StaysCalm(o, ChildInspectSent(s, ch))
  {
    hide KernelAt, Picked, Found, Held, Serving, Cargoed, Ready, Listing, ChildSpace, ResultsAt, Type, SendOnceRefs;
    StillPicked(o, NamesOf(s), ParentRank(s.ppc), ChildRank(s.cpc));
    ChildPart(o, NamesOf(s), ParentRank(s.ppc), ChildRank(s.cpc));
    AtInspectOnce(o, NamesOf(s), ChildRank(s.cpc));
    SameView(o, NamesOf(s), ParentRank(s.ppc), ChildRank(s.cpc));
  }

  lemma CalmReceive(o: Kernel, s: State, ch: Choice)
    requires Ready(o) && Calm(o, s) && s.cpc == CReceive
    ensures StaysCalm(o, ChildReceive(s, ch))
  {
    hide ResultsAt, KernelAt, Picked, Found, Held, Serving, Cargoed, Ready, Listing, Receive, Awaits, DeliveryName;
    StillPicked(o, NamesOf(s), ParentRank(s.ppc), ChildRank(s.cpc));
    var pn := ParentRank(s.ppc);
    AtAwaitVerify(o, NamesOf(s), pn, 11);
    if pn > 11 {
      AtReceiveVerify(o, NamesOf(s), pn, ch.name, s.k);
    }
  }

  lemma CalmReceiveAgain(o: Kernel, s: State, ch: Choice)
    requires Ready(o) && Calm(o, s) && s.cpc == CReceiveAgain
    ensures StaysCalm(o, ChildReceiveAgain(s, ch))
  {
    hide ResultsAt, KernelAt, Picked, Found, Held, Serving, Cargoed, Ready, Listing, Receive, Awaits, DeliveryName;
    StillPicked(o, NamesOf(s), ParentRank(s.ppc), ChildRank(s.cpc));
    AtAwaitVerify(o, NamesOf(s), ParentRank(s.ppc), 12);
    SameView(o, NamesOf(s), ParentRank(s.ppc), 12);
  }

  lemma CalmCargoTypeAfter(o: Kernel, s: State, ch: Choice)
    requires Ready(o) && Calm(o, s) && s.cpc == CCargoTypeAfter
    ensures StaysCalm(o, ChildRelease(s, ch))
  {
    hide KernelAt, Picked, Found, Held, Serving, Cargoed, Ready, Listing, ChildSpace, ResultsAt, Type, Deallocate, Destroy;
    StillPicked(o, NamesOf(s), ParentRank(s.ppc), ChildRank(s.cpc));
    ChildPart(o, NamesOf(s), ParentRank(s.ppc), ChildRank(s.cpc));
    AtCargo(o, NamesOf(s), 13);
    SameView(o, NamesOf(s), ParentRank(s.ppc), ChildRank(s.cpc));
  }

  lemma CalmDropOnce(o: Kernel, s: State, ch: Choice)
    requires Ready(o) && Calm(o, s) && s.cpc == CDropOnce
    ensures StaysCalm(o, ChildRelease(s, ch))
  {
    hide KernelAt, Picked, Found, Held, Serving, Cargoed, Ready, Listing, ChildSpace, ResultsAt, Type, Deallocate, Destroy;
    var pn, m := ParentRank(s.ppc), NamesOf(s);
    StillPicked(o, m, pn, 14);
    ChildPart(o, m, pn, 14);
    AtInspectOnce(o, m, 14);
    OnceIsNamed(o, m, pn, 14);
    SameView(o, m, pn, 14);
  }

  lemma CalmDestroy(o: Kernel, s: State, ch: Choice)
    requires Ready(o) && Calm(o, s) && s.cpc == CDestroy
    ensures StaysCalm(o, ChildRelease(s, ch))
  {
    hide ResultsAt, KernelAt, Picked, Found, Held, Serving, Cargoed, Ready, Listing, Type, Deallocate, Destroy;
    StillPicked(o, NamesOf(s), ParentRank(s.ppc), ChildRank(s.cpc));
    AtDestroyCargo(o, NamesOf(s), ParentRank(s.ppc));
  }

  lemma CalmBaselineAgain(o: Kernel, s: State, ch: Choice)
    requires Ready(o) && Calm(o, s) && s.cpc == CBaselineAgain
    ensures StaysCalm(o, ChildCleanup(s, ch))
  {
    hide KernelAt, Picked, Found, Held, Serving, Cargoed, Ready, Listing, ChildSpace, ResultsAt, Deallocate, Matches, ExitCode, Lists;
    var pn, m := ParentRank(s.ppc), NamesOf(s);
    StillPicked(o, m, pn, 16);
    SameView(o, m, pn, 16);
    if Lists(s.k, Child, ch.listing) {
      CleanListing(o, s, ch.listing);
    }
  }

  lemma CalmDrop(o: Kernel, s: State, ch: Choice)
    requires Ready(o) && Calm(o, s) && s.cpc == CDrop
    ensures StaysCalm(o, ChildCleanup(s, ch))
  {
    hide ResultsAt, KernelAt, Picked, Found, Held, Serving, Cargoed, Ready, Listing, Deallocate, Matches, ToInt;
    StillPicked(o, NamesOf(s), ParentRank(s.ppc), ChildRank(s.cpc));
    AtDropService(o, NamesOf(s), ParentRank(s.ppc));
    ListingsMatch(Found(o, s.c.service), o.listing, s.c.before, s.c.before);
    ListingsMatch(Found(o, s.c.service), o.listing, s.c.after, s.c.after);
  }

  lemma CalmLeave(o: Kernel, s: State, ch: Choice)
    requires Ready(o) && Calm(o, s) && (s.cpc == CReport || s.cpc == CExit)
    ensures StaysCalm(o, ChildLeave(s, ch))
  {
    hide ResultsAt, KernelAt, Picked, Found, Held, Serving, Cargoed, Ready, Listing, Exit, StatusAt;
    StillPicked(o, NamesOf(s), ParentRank(s.ppc), ChildRank(s.cpc));
    LastPlaces(o.listing);
    SameView(o, NamesOf(s), ParentRank(s.ppc), 18);
    if s.cpc == CExit {
      AtExit(o, NamesOf(s), ParentRank(s.ppc));
    }
  }

  lemma OnceIsNamed(o: Kernel, m: Names, pn: nat, cn: nat)
    requires Picked(o, m, pn, cn) && cn > 5
    ensures m.once != MACH_PORT_NULL
  {
    hide SendName, Held, Serving, Found, Cargoed;
  }

  lemma CalmKilled(o: Kernel, s: State)
    requires Ready(o) && Calm(o, s)
    ensures StaysCalm(o, ChildKilled(s))
  {
    hide ResultsAt, KernelAt, Picked, Found, Held, Serving, Cargoed, Ready, Listing, Exit, StatusAt;
    LastPlaces(o.listing);
    if ChildKilled(s).Some? && !ChildKilled(s).value.disturbed {
      assert s.cpc == CExit;
      AtExit(o, NamesOf(s), ParentRank(s.ppc));
      StillPicked(o, NamesOf(s), ParentRank(s.ppc), 19);
    }
  }

  lemma NoStep(o: Kernel)
    ensures StaysCalm(o, None)
  {
  }

  lemma CalmChild(o: Kernel, s: State, ch: Choice)
    requires Ready(o) && Calm(o, s)
    ensures StaysCalm(o, ChildNext(s, ch))
  {
    hide Ready, Calm, StaysCalm, ChildArrive, ChildCreate, ChildInspect, ChildSend, ChildInspectSent, ChildReceive,
         ChildReceiveAgain, ChildRelease, ChildCleanup, ChildLeave;
    match s.cpc
    case CGetBootstrap => CalmFind(o, s, ch);
    case CBaseline => CalmBaseline(o, s, ch);
    case CAllocate => CalmAllocate(o, s, ch);
    case CCargoType => CalmCargoType(o, s, ch);
    case CExtract => CalmExtract(o, s, ch);
    case CType | CRefs => CalmInspect(o, s, ch);
    case CSend => CalmSend(o, s, ch);
    case CTypeSent | CRefsSent => CalmInspectSent(o, s, ch);
    case CReceive => CalmReceive(o, s, ch);
    case CReceiveAgain => CalmReceiveAgain(o, s, ch);
    case CCargoTypeAfter => CalmCargoTypeAfter(o, s, ch);
    case CDropOnce => CalmDropOnce(o, s, ch);
    case CDestroy => CalmDestroy(o, s, ch);
    case CBaselineAgain => CalmBaselineAgain(o, s, ch);
    case CDrop => CalmDrop(o, s, ch);
    case CReport | CExit => CalmLeave(o, s, ch);
    case Unborn | Gone => NoStep(o);
  }

  // ---- the parent's steps ------------------------------------------------------------------------------

  /** The record after the steps before the fork. */
  lemma EarlyTally(listing: bool, r: Results, l: Snapshot)
    ensures r == ResultsAt(listing, 0, r) ==> r.(before := l) == ResultsAt(listing, 1, r.(before := l))
    ensures r == ResultsAt(listing, 1, r) ==> r.(pipeCreated := true) == ResultsAt(listing, 2, r.(pipeCreated := true))
    ensures r == ResultsAt(listing, 5, r) ==>
              r.krInsertService == KERN_SUCCESS
              && r.(krPublish := KERN_SUCCESS) == ResultsAt(listing, 6, r.(krPublish := KERN_SUCCESS))
    ensures r == ResultsAt(listing, 6, r) ==>
              r.krPublish == KERN_SUCCESS && r.pipeCreated && r.(forked := true) == ResultsAt(listing, 7, r.(forked := true))
  {
    hide StatusAt;
  }

  lemma CalmOpen(o: Kernel, s: State, ch: Choice)
    requires Ready(o) && Calm(o, s) && s.cpc == Unborn && (s.ppc == PBaseline || s.ppc == PPipe)
    ensures StaysCalm(o, ParentOpen(s, ch))
  {
    hide KernelAt, StatusAt, Picked, Found, Held, Serving, Cargoed, Ready, Listing, ResultsAt;
    StillPicked(o, NamesOf(s), ParentRank(s.ppc), ChildRank(s.cpc));
    EarlyTally(o.listing, s.p.r, ch.listing);
    AtStart(o, NamesOf(s));
  }

  lemma CalmOriginal(o: Kernel, s: State, ch: Choice)
    requires Ready(o) && Calm(o, s) && s.cpc == Unborn && s.ppc == PGetBootstrap
    ensures StaysCalm(o, ParentCreate(s, ch))
  {
    hide KernelAt, StatusAt, Picked, Found, Held, Serving, Cargoed, Ready, Listing, GetBootstrap, BootstrapName;
    StillPicked(o, NamesOf(s), ParentRank(s.ppc), ChildRank(s.cpc));
    if BootstrapName(s.k, Parent, ch.name) {
      AtGetBootstrap(o, NamesOf(s), ch.name);
      assert NamesOf(ParentCreate(s, ch).value) == NamesOf(s).(bootstrap := ch.name);
    }
  }

  lemma CalmService(o: Kernel, s: State, ch: Choice)
    requires Ready(o) && Calm(o, s) && s.cpc == Unborn && s.ppc == PAllocate
    ensures StaysCalm(o, ParentCreate(s, ch))
  {
    hide KernelAt, StatusAt, Picked, Found, Held, Serving, Cargoed, Ready, Listing, Allocate;
    StillPicked(o, NamesOf(s), ParentRank(s.ppc), ChildRank(s.cpc));
    if FreeName(s.k.parent, ch.name) {
      AtAllocate(o, NamesOf(s), ch.name);
      if !ch.fail {
        assert NamesOf(ParentCreate(s, ch).value) == NamesOf(s).(service := ch.name);
      }
    }
  }

  lemma CalmServiceSend(o: Kernel, s: State, ch: Choice)
    requires Ready(o) && Calm(o, s) && s.cpc == Unborn && s.ppc == PInsert
    ensures StaysCalm(o, ParentCreate(s, ch))
  {
    hide KernelAt, StatusAt, Picked, Found, Held, Serving, Cargoed, Ready, Listing, MakeSend;
    StillPicked(o, NamesOf(s), ParentRank(s.ppc), ChildRank(s.cpc));
    AtInsert(o, NamesOf(s));
  }

  lemma CalmPublish(o: Kernel, s: State, ch: Choice)
    requires Ready(o) && Calm(o, s) && s.cpc == Unborn && s.ppc == PPublish
    ensures StaysCalm(o, ParentFork(s, ch))
  {
    hide KernelAt, StatusAt, Picked, Found, Held, Serving, Cargoed, Ready, Listing, SetBootstrap, ResultsAt;
    StillPicked(o, NamesOf(s), ParentRank(s.ppc), ChildRank(s.cpc));
    EarlyTally(o.listing, s.p.r, s.p.r.before);
    AtPublish(o, NamesOf(s));
  }

  lemma CalmFork(o: Kernel, s: State, ch: Choice)
    requires Ready(o) && Calm(o, s) && s.cpc == Unborn && s.ppc == PFork
    ensures StaysCalm(o, ParentFork(s, ch))
  {
    hide KernelAt, Picked, Found, Held, Serving, Cargoed, Ready, Listing, SetBootstrap, ResultsAt;
    StillPicked(o, NamesOf(s), ParentRank(s.ppc), ChildRank(s.cpc));
    EarlyTally(o.listing, s.p.r, s.p.r.before);
    AtFork(o, NamesOf(s));
  }

  lemma CalmRestore(o: Kernel, s: State, ch: Choice)
    requires Ready(o) && Calm(o, s) && s.ppc == PRestore
    ensures StaysCalm(o, ParentFork(s, ch))
  {
    hide KernelAt, StatusAt, Picked, Found, Held, Serving, Cargoed, Ready, Listing, SetBootstrap;
    StillPicked(o, NamesOf(s), ParentRank(s.ppc), ChildRank(s.cpc));
    AtRestore(o, NamesOf(s), ChildRank(s.cpc));
  }

  lemma CalmDelivery(o: Kernel, s: State, ch: Choice)
    requires Ready(o) && Calm(o, s) && s.ppc == PReceive
    ensures StaysCalm(o, ParentReceive(s, ch))
  {
    hide KernelAt, StatusAt, Picked, Found, Held, Serving, Cargoed, Ready, Listing, Receive, Awaits, DeliveryName;
    StillPicked(o, NamesOf(s), ParentRank(s.ppc), ChildRank(s.cpc));
    var cn := ChildRank(s.cpc);
    AtAwait(o, NamesOf(s), cn);
    if cn > 8 && DeliveryName(s.k, Parent, CarriedSendOnce(o.next + 1), ch.name) {
      AtReceive(o, NamesOf(s), cn, ch.name, s.k);
      assert NamesOf(ParentReceive(s, ch).value) == NamesOf(s).(delivered := ch.name);
    }
  }

  lemma CalmLook(o: Kernel, s: State, ch: Choice)
    requires Ready(o) && Calm(o, s) && (s.ppc == PType || s.ppc == PRefs)
    ensures StaysCalm(o, ParentInspect(s, ch))
  {
    hide KernelAt, StatusAt, Picked, Found, Held, Serving, Cargoed, Ready, Listing, Type, SendOnceRefs;
    StillPicked(o, NamesOf(s), ParentRank(s.ppc), ChildRank(s.cpc));
    var pn, cn := ParentRank(s.ppc), ChildRank(s.cpc);
    AtInspect(o, NamesOf(s), pn, cn);
    AtInspect(o, NamesOf(s), pn + 1, cn);
  }

  lemma CalmFirst(o: Kernel, s: State, ch: Choice)
    requires Ready(o) && Calm(o, s) && s.ppc == PFirst
    ensures StaysCalm(o, ParentUse(s, ch))
  {
    hide KernelAt, StatusAt, Picked, Found, Held, Serving, Cargoed, Ready, Listing, Send;
    StillPicked(o, NamesOf(s), ParentRank(s.ppc), ChildRank(s.cpc));
    AtFirst(o, NamesOf(s), ChildRank(s.cpc));
  }

  lemma CalmLookUsed(o: Kernel, s: State, ch: Choice)
    requires Ready(o) && Calm(o, s) && (s.ppc == PTypeAfter || s.ppc == PRefsAfter)
    ensures StaysCalm(o, ParentInspectUsed(s, ch))
  {
    hide KernelAt, StatusAt, Picked, Found, Held, Serving, Cargoed, Ready, Listing, Type, SendOnceRefs;
    StillPicked(o, NamesOf(s), ParentRank(s.ppc), ChildRank(s.cpc));
    var pn, cn := ParentRank(s.ppc), ChildRank(s.cpc);
    AtUsed(o, NamesOf(s), pn, cn);
    AtUsed(o, NamesOf(s), pn + 1, cn);
  }

  lemma CalmSecond(o: Kernel, s: State, ch: Choice)
    requires Ready(o) && Calm(o, s) && s.ppc == PSecond
    ensures StaysCalm(o, ParentUse(s, ch))
  {
    hide KernelAt, StatusAt, Picked, Found, Held, Serving, Cargoed, Ready, Listing, Send;
    StillPicked(o, NamesOf(s), ParentRank(s.ppc), ChildRank(s.cpc));
    var pn, cn := ParentRank(s.ppc), ChildRank(s.cpc);
    AtUsed(o, NamesOf(s), pn, cn);
    AtUsed(o, NamesOf(s), pn + 1, cn);
  }

  lemma CalmWait(o: Kernel, s: State, ch: Choice)
    requires Ready(o) && Calm(o, s) && (s.ppc == PRead || s.ppc == PWait)
    ensures StaysCalm(o, ParentWait(s, ch))
  {
    hide KernelAt, Picked, Found, Held, Serving, Cargoed, Ready, Listing, StatusAt;
    StillPicked(o, NamesOf(s), ParentRank(s.ppc), ChildRank(s.cpc));
    var pn, cn := ParentRank(s.ppc), ChildRank(s.cpc);
    AtUsed(o, NamesOf(s), pn, cn);
    AtUsed(o, NamesOf(s), pn + 1, cn);
  }

  lemma CalmDeallocate(o: Kernel, s: State, ch: Choice)
    requires Ready(o) && Calm(o, s) && s.ppc == PDeallocate
    ensures StaysCalm(o, ParentReclaim(s, ch))
  {
    hide KernelAt, StatusAt, Picked, Found, Held, Serving, Cargoed, Ready, Listing, Deallocate;
    StillPicked(o, NamesOf(s), ParentRank(s.ppc), ChildRank(s.cpc));
    var pn, cn := ParentRank(s.ppc), ChildRank(s.cpc);
    AtUsed(o, NamesOf(s), pn, cn);
    AtUsed(o, NamesOf(s), pn + 1, cn);
  }

  lemma CalmDestroyService(o: Kernel, s: State, ch: Choice)
    requires Ready(o) && Calm(o, s) && s.ppc == PDestroy && s.cpc == Gone
    ensures StaysCalm(o, ParentReclaim(s, ch))
  {
    hide KernelAt, StatusAt, Picked, Found, Held, Serving, Cargoed, Ready, Listing, Destroy;
    StillPicked(o, NamesOf(s), ParentRank(s.ppc), ChildRank(s.cpc));
    AtDestroy(o, NamesOf(s));
  }

  lemma CalmDropBootstrap(o: Kernel, s: State, ch: Choice)
    requires Ready(o) && Calm(o, s) && s.ppc == PDrop && s.cpc == Gone
    ensures StaysCalm(o, ParentCleanup(s, ch))
  {
    hide KernelAt, StatusAt, Picked, Found, Held, Serving, Cargoed, Ready, Listing, Deallocate;
    StillPicked(o, NamesOf(s), ParentRank(s.ppc), ChildRank(s.cpc));
    AtDrop(o, NamesOf(s));
  }

  lemma CalmEnd(o: Kernel, s: State, ch: Choice)
    requires Ready(o) && Calm(o, s) && s.ppc == PBaselineAgain && s.cpc == Gone
    ensures StaysCalm(o, ParentCleanup(s, ch))
  {
    hide KernelAt, StatusAt, Picked, Found, Held, Serving, Cargoed, Ready, Listing, Matches;
    StillPicked(o, NamesOf(s), ParentRank(s.ppc), ChildRank(s.cpc));
    AtBaseline(o, NamesOf(s));
    if Lists(s.k, Parent, ch.listing) {
      ListingsMatch(o.parent, o.listing, s.p.r.before, ch.listing);
    }
  }

  lemma CalmParent(o: Kernel, s: State, ch: Choice)
    requires Ready(o) && Calm(o, s)
    ensures StaysCalm(o, ParentNext(s, ch))
  {
    hide Ready, StaysCalm, ParentOpen, ParentCreate, ParentFork, ParentReceive, ParentInspect, ParentUse,
         ParentInspectUsed, ParentWait, ParentReclaim, ParentCleanup, KernelAt, Picked, Seen, ResultsAt, StatusAt;
    assert ParentRank(s.ppc) <= 6 ==> s.cpc == Unborn;
    assert ParentRank(s.ppc) > 16 ==> s.cpc == Gone;
    match s.ppc
    case PBaseline | PPipe => CalmOpen(o, s, ch);
    case PGetBootstrap => CalmOriginal(o, s, ch);
    case PAllocate => CalmService(o, s, ch);
    case PInsert => CalmServiceSend(o, s, ch);
    case PPublish => CalmPublish(o, s, ch);
    case PFork => CalmFork(o, s, ch);
    case PRestore => CalmRestore(o, s, ch);
    case PReceive => CalmDelivery(o, s, ch);
    case PType | PRefs => CalmLook(o, s, ch);
    case PFirst => CalmFirst(o, s, ch);
    case PTypeAfter | PRefsAfter => CalmLookUsed(o, s, ch);
    case PSecond => CalmSecond(o, s, ch);
    case PRead | PWait => CalmWait(o, s, ch);
    case PDeallocate => CalmDeallocate(o, s, ch);
    case PDestroy => CalmDestroyService(o, s, ch);
    case PDrop => CalmDropBootstrap(o, s, ch);
    case PBaselineAgain => CalmEnd(o, s, ch);
    case Done => NoStep(o);
  }

  lemma CalmStep(o: Kernel, s: State, m: Move)
    requires Ready(o) && Calm(o, s)
    ensures StaysCalm(o, Next(s, m))
  {
    hide Ready, Calm, StaysCalm, ParentNext, ChildNext, ChildKilled;
    match m
    case ParentMoves(ch) => CalmParent(o, s, ch);
    case ChildMoves(ch) => CalmChild(o, s, ch);
    case ChildDies => CalmKilled(o, s);
  }
}
