/**
 In an undisturbed run of the MOVE_SEND probe every interleaving goes through the same states: the
 kernel, the two records and the names are functions of where the two programs are.
 */
module MoveSendSafety {
  import opened Baseline
  import opened MachKernel
  import opened PipeTransfer
  import opened Rendezvous
  import opened MoveSendVerdict
  import opened MoveSend
  import opened MoveSendProgress
  import opened MoveSendKernel

  function NamesOf(s: State): Names {
    Names(s.p.bootstrap, s.p.service, s.p.r.delivered, s.c.service, s.c.cargo)
  }

  function KrNames(listing: bool): Word {
    if listing then KERN_SUCCESS else KERN_NOT_SUPPORTED
  }

  function After(passed: bool, untried: Word): Word {
    if passed then KERN_SUCCESS else untried
  }

  /** The child's record when it stands at a place: what it has tried has gone as the contract says. The headers are its own. */
  function StatusAt(listing: bool, cn: nat, h: Headers): ChildStatus {
    ChildStatus(
      STATUS_VERSION, if cn > 14 then 1 else 0, 0, if cn > 15 then 0 else 1,
      if cn > 2 then KrNames(listing) else KERN_FAILURE, After(cn > 1, KERN_FAILURE), After(cn > 3, KERN_FAILURE),
      After(cn > 4, KERN_FAILURE), After(cn > 5, KERN_FAILURE), After(cn > 6, KERN_FAILURE),
      After(cn > 7, MACH_SEND_INVALID_DEST), After(cn > 8, KERN_FAILURE), After(cn > 9, KERN_FAILURE),
      After(cn > 10, MACH_RCV_INVALID_NAME), After(cn > 11, KERN_FAILURE), After(cn > 12, KERN_FAILURE),
      After(cn > 13, KERN_FAILURE), if cn > 14 then KrNames(listing) else KERN_FAILURE,
      if cn > 5 then TYPE_SEND_RECEIVE else 0, if cn > 8 then TYPE_RECEIVE else 0, if cn > 11 then TYPE_RECEIVE else 0,
      if cn > 6 then 1 else 0, 0, 0, if cn > 10 then VERIFY_ID else 0, h)
  }

  /** The parent's results likewise; the snapshots and the delivered name are its own. */
  function ResultsAt(listing: bool, pn: nat, r: Results): Results {
    Results(
      r.before, r.after, pn > 19,
      pn > 1, After(pn > 2, KERN_FAILURE), After(pn > 3, KERN_FAILURE), After(pn > 4, KERN_FAILURE), After(pn > 5, KERN_FAILURE),
      pn > 6, After(pn > 8, KERN_FAILURE), After(pn > 9, MACH_RCV_INVALID_NAME), if pn > 9 then 1 else 0,
      if pn > 9 then r.delivered else MACH_PORT_NULL,
      After(pn > 10, KERN_FAILURE), if pn > 10 then TYPE_SEND else 0, After(pn > 11, KERN_FAILURE), if pn > 11 then 1 else 0,
      After(pn > 12, MACH_SEND_INVALID_DEST),
      if pn > 13 then StatusAt(listing, 19, r.child.headers) else Unreported(), pn > 13, pn > 15,
      After(pn > 16, KERN_FAILURE), After(pn > 17, KERN_FAILURE), After(pn > 18, KERN_FAILURE))
  }

  /** The snapshots taken so far list the namespaces at the start. */
  ghost predicate Seen(o: Kernel, s: State) {
    var pn, cn := ParentRank(s.ppc), ChildRank(s.cpc);
    && (pn > 0 ==> Listing(o.parent, o.listing, s.p.r.before))
    && (pn > 19 ==> Listing(o.parent, o.listing, s.p.r.after))
    && (cn > 2 ==> Listing(Found(o, s.c.service), o.listing, s.c.before))
    && (cn > 14 ==> Listing(Found(o, s.c.service), o.listing, s.c.after))
  }

  ghost predicate Calm(o: Kernel, s: State) {
    var pn, cn, m := ParentRank(s.ppc), ChildRank(s.cpc), NamesOf(s);
    && InStep(pn, cn)
    && (cn > 16 || pn > 13 ==> s.c.sent == RECORD_SIZE)
    && s.k == KernelAt(o, m, pn, cn) && Picked(o, m, pn, cn)
    && s.c.st == StatusAt(o.listing, cn, s.c.st.headers)
    && s.p.r == ResultsAt(o.listing, pn, s.p.r)
    && Seen(o, s)
  }

  lemma InitCalm(s: State)
    requires Init(s)
    ensures Calm(s.k, s)
  {
  }

  ghost predicate StaysCalm(o: Kernel, n: Option<State>) {
    n.Some? && !n.value.disturbed ==> Calm(o, n.value)
  }

  /** What a task sees of itself while only the other acts. */
  lemma SameView(o: Kernel, m: Names, pn: nat, cn: nat)
    requires cn in {5, 6, 8, 9, 11, 12}
    ensures ChildSpace(o, m, cn + 1) == ChildSpace(o, m, cn)
    ensures KernelAt(o, m, pn, cn + 1) == KernelAt(o, m, pn, cn)
  {
    hide Held, Serving, Found;
  }

  /** Picks stay good while no name is picked. */
  lemma StillPicked(o: Kernel, m: Names, pn: nat, cn: nat)
    requires Picked(o, m, pn, cn)
    ensures cn !in {1, 3} ==> Picked(o, m, pn, cn + 1)
    ensures pn !in {2, 3, 9} ==> Picked(o, m, pn + 1, cn)
    ensures pn >= 7 ==> Picked(o, m, 7, cn)
  {
    hide SendName, FreeName, Held, Serving, Found;
  }

  lemma ListingKr(sp: Space, supported: bool, l: Snapshot)
    requires Listing(sp, supported, l)
    ensures l.kr == KrNames(supported)
  {
  }

  lemma CleanListing(o: Kernel, s: State, l: Snapshot)
    requires Calm(o, s) && s.cpc == CBaselineAgain && Lists(s.k, Child, l)
    ensures Listing(Found(o, s.c.service), o.listing, l) && Matches(s.c.before, l) && |l.names| == |s.c.before.names|
    ensures l.kr == KrNames(o.listing)
  {
    hide Picked, Found, Held, Serving, Matches, Listing;
    var found := Found(o, s.c.service);
    assert s.k.child == found;
    ListingKr(found, o.listing, l);
    ListingsMatch(found, o.listing, s.c.before, l);
  }

  // ---- the child's steps ------------------------------------------------------------------------------------

  lemma CalmFind(o: Kernel, s: State, ch: Choice)
    requires Ready(o) && Calm(o, s) && s.cpc == CGetBootstrap
    ensures StaysCalm(o, ChildArrive(s, ch))
  {
    hide ResultsAt, KernelAt, Picked, Found, Held, Serving, Ready, Listing, GetBootstrap, BootstrapName, Lists;
    StillPicked(o, NamesOf(s), ParentRank(s.ppc), ChildRank(s.cpc));
    if BootstrapName(s.k, Child, ch.name) {
      AtFind(o, NamesOf(s), ParentRank(s.ppc), ch.name);
      assert NamesOf(ChildArrive(s, ch).value) == NamesOf(s).(published := ch.name);
    }
  }

  lemma CalmBaseline(o: Kernel, s: State, ch: Choice)
    requires Ready(o) && Calm(o, s) && s.cpc == CBaseline
    ensures StaysCalm(o, ChildArrive(s, ch))
  {
    hide ResultsAt, Picked, Found, Held, Serving, Ready, Listing, GetBootstrap, BootstrapName;
    StillPicked(o, NamesOf(s), ParentRank(s.ppc), ChildRank(s.cpc));
    if Lists(s.k, Child, ch.listing) {
      assert s.k.child == Found(o, s.c.service);
      ListingKr(s.k.child, o.listing, ch.listing);
    }
  }

  lemma CalmAllocate(o: Kernel, s: State, ch: Choice)
    requires Ready(o) && Calm(o, s) && s.cpc == CAllocate
    ensures StaysCalm(o, ChildCreate(s, ch))
  {
    hide ResultsAt, KernelAt, Picked, Found, Held, Serving, Ready, Listing, Allocate, MakeSend;
    StillPicked(o, NamesOf(s), ParentRank(s.ppc), ChildRank(s.cpc));
    if FreeName(s.k.child, ch.name) {
      AtAllocateCargo(o, NamesOf(s), ParentRank(s.ppc), ch.name);
      if !ch.fail {
        assert NamesOf(ChildCreate(s, ch).value) == NamesOf(s).(cargo := ch.name);
      }
    }
  }

  lemma CalmInsert(o: Kernel, s: State, ch: Choice)
    requires Ready(o) && Calm(o, s) && s.cpc == CInsert
    ensures StaysCalm(o, ChildCreate(s, ch))
  {
    hide ResultsAt, KernelAt, Picked, Found, Held, Serving, Ready, Listing, Allocate, MakeSend;
    StillPicked(o, NamesOf(s), ParentRank(s.ppc), ChildRank(s.cpc));
    AtInsertCargo(o, NamesOf(s), ParentRank(s.ppc));
  }

  lemma CalmInspect(o: Kernel, s: State, ch: Choice)
    requires Ready(o) && Calm(o, s) && s.cpc in {CType, CRefs}
    ensures StaysCalm(o, ChildInspect(s, ch))
  {
    hide Picked, Found, Held, Serving, Ready, Listing, Type, SendRefs, ParentSpace, Queues;
    StillPicked(o, NamesOf(s), ParentRank(s.ppc), ChildRank(s.cpc));
    AtInspectCargo(o, NamesOf(s), ChildRank(s.cpc));
    SameView(o, NamesOf(s), ParentRank(s.ppc), ChildRank(s.cpc));
  }

  lemma CalmInspectSent(o: Kernel, s: State, ch: Choice)
    requires Ready(o) && Calm(o, s) && s.cpc in {CTypeSent, CRefsSent}
    ensures StaysCalm(o, ChildInspectSent(s, ch))
  {
    hide Picked, Found, Held, Serving, Ready, Listing, Type, SendRefs, ParentSpace, Queues;
    StillPicked(o, NamesOf(s), ParentRank(s.ppc), ChildRank(s.cpc));
    AtInspectCargo(o, NamesOf(s), ChildRank(s.cpc));
    SameView(o, NamesOf(s), ParentRank(s.ppc), ChildRank(s.cpc));
  }

  lemma CalmInspectVerified(o: Kernel, s: State, ch: Choice)
    requires Ready(o) && Calm(o, s) && s.cpc in {CTypeVerified, CRefsVerified}
    ensures StaysCalm(o, ChildInspectVerified(s, ch))
  {
    hide Picked, Found, Held, Serving, Ready, Listing, Type, SendRefs, ParentSpace, Queues;
    StillPicked(o, NamesOf(s), ParentRank(s.ppc), ChildRank(s.cpc));
    AtInspectCargo(o, NamesOf(s), ChildRank(s.cpc));
    SameView(o, NamesOf(s), ParentRank(s.ppc), ChildRank(s.cpc));
  }

  lemma CalmSend(o: Kernel, s: State, ch: Choice)
    requires Ready(o) && Calm(o, s) && s.cpc == CSend
    ensures StaysCalm(o, ChildSend(s, ch))
  {
    hide ResultsAt, KernelAt, Picked, Found, Held, Serving, Ready, Listing, Send;
    StillPicked(o, NamesOf(s), ParentRank(s.ppc), ChildRank(s.cpc));
    AtSend(o, NamesOf(s), ParentRank(s.ppc));
  }

  lemma CalmReceive(o: Kernel, s: State, ch: Choice)
    requires Ready(o) && Calm(o, s) && s.cpc == CReceive
    ensures StaysCalm(o, ChildReceive(s, ch))
  {
    hide ResultsAt, KernelAt, Picked, Found, Held, Serving, Ready, Listing, Receive, Awaits, DeliveryName;
    StillPicked(o, NamesOf(s), ParentRank(s.ppc), ChildRank(s.cpc));
    var pn := ParentRank(s.ppc);
    AtAwaitVerify(o, NamesOf(s), pn);
    if pn > 12 {
      AtReceiveVerify(o, NamesOf(s), pn, ch.name, s.k);
    }
  }

  lemma CalmDestroy(o: Kernel, s: State, ch: Choice)
    requires Ready(o) && Calm(o, s) && s.cpc == CDestroy && s.ppc == PRead
    ensures StaysCalm(o, ChildCleanup(s, ch))
  {
    hide ResultsAt, KernelAt, Picked, Found, Held, Serving, Ready, Listing, Destroy;
    StillPicked(o, NamesOf(s), ParentRank(s.ppc), ChildRank(s.cpc));
    AtDestroyCargo(o, NamesOf(s));
  }

  lemma CalmBaselineAgain(o: Kernel, s: State, ch: Choice)
    requires Ready(o) && Calm(o, s) && s.cpc == CBaselineAgain
    ensures StaysCalm(o, ChildCleanup(s, ch))
  {
    hide ResultsAt, Picked, Found, Held, Serving, Ready, Listing, Destroy, Deallocate, Matches, ExitCode;
    StillPicked(o, NamesOf(s), ParentRank(s.ppc), ChildRank(s.cpc));
    AtDropService(o, NamesOf(s), ParentRank(s.ppc));
    if Lists(s.k, Child, ch.listing) {
      CleanListing(o, s, ch.listing);
    }
  }

  /** The child computes exit code 0. */
  lemma ExitsWell(listing: bool, h: Headers, before: Snapshot, after: Snapshot)
    requires !BlocksProbe(before) && !BlocksProbe(after)
    ensures var st := StatusAt(listing, 15, h);
            st.krGetBootstrap == KERN_SUCCESS && st.(exitCode := ExitCode(st, before, after)) == StatusAt(listing, 16, h)
  {
    hide BlocksProbe;
  }

  lemma CalmDrop(o: Kernel, s: State, ch: Choice)
    requires Ready(o) && Calm(o, s) && s.cpc == CDrop
    ensures StaysCalm(o, ChildCleanup(s, ch))
  {
    hide KernelAt, Picked, Found, Held, Serving, Ready, Listing, Deallocate, Matches, ToInt, ExitCode, StatusAt, ResultsAt;
    StillPicked(o, NamesOf(s), ParentRank(s.ppc), ChildRank(s.cpc));
    AtDropService(o, NamesOf(s), ParentRank(s.ppc));
    ListingsMatch(Found(o, s.c.service), o.listing, s.c.before, s.c.before);
    ListingsMatch(Found(o, s.c.service), o.listing, s.c.after, s.c.after);
    ExitsWell(o.listing, s.c.st.headers, s.c.before, s.c.after);
  }

  lemma CalmWrite(o: Kernel, s: State, ch: Choice)
    requires Ready(o) && Calm(o, s) && Control(s) && s.cpc == CWrite
    ensures StaysCalm(o, ChildWrite(s, ch))
  {
    hide ResultsAt, KernelAt, Picked, Found, Held, Serving, Ready, Listing, Stored, Record;
    StillPicked(o, NamesOf(s), ParentRank(s.ppc), ChildRank(s.cpc));
    AtExit(o, NamesOf(s), ParentRank(s.ppc), 16);
    AtLeave(o, NamesOf(s), ParentRank(s.ppc));
  }

  lemma AtLeave(o: Kernel, m: Names, pn: nat)
    requires Ready(o) && Picked(o, m, pn, 16) && InStep(pn, 16)
    ensures KernelAt(o, m, pn, 16) == KernelAt(o, m, pn, 17) == KernelAt(o, m, pn, 18)
    ensures Picked(o, m, pn, 17) && Picked(o, m, pn, 18) && Picked(o, m, pn, 19)
  {
    hide Ready, Held, Serving, Found, SendName, FreeName;
  }

  lemma CalmLeave(o: Kernel, s: State, ch: Choice)
    requires Ready(o) && Calm(o, s) && (s.cpc == CClose || s.cpc == CExit)
    ensures StaysCalm(o, ChildLeave(s, ch))
  {
    hide ResultsAt, KernelAt, Picked, Found, Held, Serving, Ready, Listing, Exit;
    StillPicked(o, NamesOf(s), ParentRank(s.ppc), ChildRank(s.cpc));
    AtExit(o, NamesOf(s), ParentRank(s.ppc), ChildRank(s.cpc));
    LastPlaces(o, NamesOf(s), ParentRank(s.ppc));
  }

  /** Once its record is written nothing depends on how the child ends. */
  lemma LastPlaces(o: Kernel, m: Names, pn: nat)
    ensures KernelAt(o, m, pn, 16) == KernelAt(o, m, pn, 17) == KernelAt(o, m, pn, 18)
    ensures forall cn, h | 16 <= cn <= 18 :: StatusAt(o.listing, cn, h) == StatusAt(o.listing, 19, h)
  {
    hide Held, Serving, Found;
  }

  lemma CalmKilled(o: Kernel, s: State)
    requires Ready(o) && Calm(o, s) && Control(s)
    ensures StaysCalm(o, ChildKilled(s))
  {
    hide ResultsAt, KernelAt, Picked, Found, Held, Serving, Ready, Listing, Exit, Stored, Record;
    var pn, cn := ParentRank(s.ppc), ChildRank(s.cpc);
    if ChildKilled(s).Some? && !ChildKilled(s).value.disturbed {
      assert 16 <= cn <= 18;
      AtExit(o, NamesOf(s), pn, cn);
      LastPlaces(o, NamesOf(s), pn);
      PickedAtEnd(o, NamesOf(s), pn, cn);
      assert s.c.st == StatusAt(o.listing, 19, s.c.st.headers);
    }
  }

  lemma PickedAtEnd(o: Kernel, m: Names, pn: nat, cn: nat)
    requires Picked(o, m, pn, cn) && 3 < cn <= 19
    ensures Picked(o, m, pn, 19)
  {
    hide SendName, FreeName, Held, Serving, Found;
  }

  lemma NoStep(o: Kernel)
    ensures StaysCalm(o, None)
  {
  }

  lemma CalmChild(o: Kernel, s: State, ch: Choice)
    requires Ready(o) && Calm(o, s) && Control(s)
    ensures StaysCalm(o, ChildNext(s, ch))
  {
    hide Ready, Control, StaysCalm, ChildArrive, ChildCreate, ChildInspect, ChildSend, ChildInspectSent, ChildReceive,
         ChildInspectVerified, ChildCleanup, ChildWrite, ChildLeave, KernelAt, Picked, Seen, ResultsAt, StatusAt;
    match s.cpc
    case CGetBootstrap => CalmFind(o, s, ch);
    case CBaseline => CalmBaseline(o, s, ch);
    case CAllocate => CalmAllocate(o, s, ch);
    case CInsert => CalmInsert(o, s, ch);
    case CType | CRefs => CalmInspect(o, s, ch);
    case CSend => CalmSend(o, s, ch);
    case CTypeSent | CRefsSent => CalmInspectSent(o, s, ch);
    case CReceive => CalmReceive(o, s, ch);
    case CTypeVerified | CRefsVerified => CalmInspectVerified(o, s, ch);
    case CDestroy => CalmDestroy(o, s, ch);
    case CBaselineAgain => CalmBaselineAgain(o, s, ch);
    case CDrop => CalmDrop(o, s, ch);
    case CWrite => CalmWrite(o, s, ch);
    case CClose | CExit => CalmLeave(o, s, ch);
    case Unborn | Gone => NoStep(o);
  }

  // ---- the parent's steps ------------------------------------------------------------------------------

  lemma AtStart(o: Kernel, m: Names)
    ensures KernelAt(o, m, 0, 0) == KernelAt(o, m, 1, 0) == KernelAt(o, m, 2, 0)
    ensures KernelAt(o, m, 0, 0).parent == o.parent && KernelAt(o, m, 0, 0).listing == o.listing
  {
    hide Held, Serving, Found;
  }

  /** The record after the steps before the fork. */
  lemma EarlyTally(listing: bool, r: Results, l: Snapshot)
    ensures r == ResultsAt(listing, 0, r) ==> r.(before := l) == ResultsAt(listing, 1, r.(before := l))
    ensures r == ResultsAt(listing, 1, r) ==> r.(pipeCreated := true) == ResultsAt(listing, 2, r.(pipeCreated := true))
    ensures r == ResultsAt(listing, 5, r) ==>
              r.krInsertService == KERN_SUCCESS
              && r.(krPublish := KERN_SUCCESS) == ResultsAt(listing, 6, r.(krPublish := KERN_SUCCESS))
    ensures r == ResultsAt(listing, 6, r) ==>
              r.krPublish == KERN_SUCCESS && r.pipeCreated && r.(forked := true) == ResultsAt(listing, 7, r.(forked := true))
  {
    hide StatusAt;
  }

  lemma CalmOpen(o: Kernel, s: State, ch: Choice)
    requires Ready(o) && Calm(o, s) && s.cpc == Unborn && (s.ppc == PBaseline || s.ppc == PPipe)
    ensures StaysCalm(o, ParentOpen(s, ch))
  {
    hide KernelAt, StatusAt, Picked, Found, Held, Serving, Ready, Listing, SetBootstrap, ResultsAt;
    EarlyTally(o.listing, s.p.r, ch.listing);
    AtStart(o, NamesOf(s));
    StillPicked(o, NamesOf(s), ParentRank(s.ppc), 0);
  }

  lemma CalmOriginal(o: Kernel, s: State, ch: Choice)
    requires Ready(o) && Calm(o, s) && s.cpc == Unborn && s.ppc == PGetBootstrap
    ensures StaysCalm(o, ParentCreate(s, ch))
  {
    hide KernelAt, StatusAt, Picked, Found, Held, Serving, Ready, Listing, GetBootstrap, BootstrapName;
    StillPicked(o, NamesOf(s), ParentRank(s.ppc), ChildRank(s.cpc));
    if BootstrapName(s.k, Parent, ch.name) {
      AtGetBootstrap(o, NamesOf(s), ch.name);
      assert NamesOf(ParentCreate(s, ch).value) == NamesOf(s).(bootstrap := ch.name);
    }
  }

  lemma CalmService(o: Kernel, s: State, ch: Choice)
    requires Ready(o) && Calm(o, s) && s.cpc == Unborn && s.ppc == PAllocate
    ensures StaysCalm(o, ParentCreate(s, ch))
  {
    hide KernelAt, StatusAt, Picked, Found, Held, Serving, Ready, Listing, Allocate;
    StillPicked(o, NamesOf(s), ParentRank(s.ppc), ChildRank(s.cpc));
    if FreeName(s.k.parent, ch.name) {
      AtAllocate(o, NamesOf(s), ch.name);
      if !ch.fail {
        assert NamesOf(ParentCreate(s, ch).value) == NamesOf(s).(service := ch.name);
      }
    }
  }

  lemma CalmServiceSend(o: Kernel, s: State, ch: Choice)
    requires Ready(o) && Calm(o, s) && s.cpc == Unborn && s.ppc == PInsert
    ensures StaysCalm(o, ParentCreate(s, ch))
  {
    hide KernelAt, StatusAt, Picked, Found, Held, Serving, Ready, Listing, MakeSend;
    StillPicked(o, NamesOf(s), ParentRank(s.ppc), ChildRank(s.cpc));
    AtInsert(o, NamesOf(s));
  }

  lemma CalmPublish(o: Kernel, s: State, ch: Choice)
    requires Ready(o) && Calm(o, s) && s.cpc == Unborn && s.ppc == PPublish
    ensures StaysCalm(o, ParentFork(s, ch))
  {
    hide KernelAt, StatusAt, Picked, Found, Held, Serving, Ready, Listing, SetBootstrap, ResultsAt;
    EarlyTally(o.listing, s.p.r, s.p.r.before);
    StillPicked(o, NamesOf(s), 5, 0);
    AtPublish(o, NamesOf(s));
  }

  lemma CalmFork(o: Kernel, s: State, ch: Choice)
    requires Ready(o) && Calm(o, s) && s.cpc == Unborn && s.ppc == PFork
    ensures StaysCalm(o, ParentFork(s, ch))
  {
    hide KernelAt, Picked, Found, Held, Serving, Ready, Listing, SetBootstrap, ResultsAt;
    EarlyTally(o.listing, s.p.r, s.p.r.before);
    AtFork(o, NamesOf(s));
  }

  /** What the parent knows changes with the restore only. */
  lemma ResultsRestored(listing: bool, r: Results)
    ensures r == ResultsAt(listing, 7, r) || r == ResultsAt(listing, 8, r) ==> r.pipeCreated && r.krPublish == KERN_SUCCESS
    ensures r == ResultsAt(listing, 7, r) ==> r == ResultsAt(listing, 8, r)
    ensures r == ResultsAt(listing, 8, r) ==> var q := r.(krRestore := KERN_SUCCESS); q == ResultsAt(listing, 9, q)
  {
    hide StatusAt;
  }

  lemma CalmRestore(o: Kernel, s: State, ch: Choice)
    requires Ready(o) && Calm(o, s) && (s.ppc == PCloseWrite || s.ppc == PRestore)
    ensures StaysCalm(o, ParentRestore(s, ch))
  {
    hide KernelAt, StatusAt, ResultsAt, Picked, Found, Held, Serving, Ready, Listing, SetBootstrap;
    ResultsRestored(o.listing, s.p.r);
    StillPicked(o, NamesOf(s), ParentRank(s.ppc), ChildRank(s.cpc));
    StillServing(o, NamesOf(s), ChildRank(s.cpc));
    if s.ppc == PRestore {
      AtRestore(o, NamesOf(s), ChildRank(s.cpc));
    }
  }

  /** What the parent notes when the descriptor arrives. */
  lemma ResultsReceived(listing: bool, r: Results, n: Name)
    requires r == ResultsAt(listing, 9, r)
    ensures r.forked
    ensures var q := r.(mrReceive := MACH_MSG_SUCCESS, delivered := n, descriptors := 1); q == ResultsAt(listing, 10, q)
  {
    hide StatusAt;
  }

  lemma CalmDelivery(o: Kernel, s: State, ch: Choice)
    requires Ready(o) && Calm(o, s) && s.ppc == PReceive
    ensures StaysCalm(o, ParentReceive(s, ch))
  {
    hide KernelAt, StatusAt, ResultsAt, Picked, Found, Held, Serving, Ready, Listing, Receive, Awaits, DeliveryName;
    ResultsReceived(o.listing, s.p.r, ch.name);
    StillPicked(o, NamesOf(s), ParentRank(s.ppc), ChildRank(s.cpc));
    var cn := ChildRank(s.cpc);
    AtAwait(o, NamesOf(s), cn);
    if cn > 7 && DeliveryName(s.k, Parent, CarriedSend(o.next + 1), ch.name) {
      AtReceive(o, NamesOf(s), cn, ch.name, s.k);
      assert NamesOf(ParentReceive(s, ch).value) == NamesOf(s).(delivered := ch.name);
    }
  }

  lemma CalmLook(o: Kernel, s: State, ch: Choice)
    requires Ready(o) && Calm(o, s) && (s.ppc == PType || s.ppc == PRefs)
    ensures StaysCalm(o, ParentInspect(s, ch))
  {
    hide KernelAt, StatusAt, Picked, Found, Held, Serving, Ready, Listing, Type, SendRefs;
    StillPicked(o, NamesOf(s), ParentRank(s.ppc), ChildRank(s.cpc));
    var pn, cn := ParentRank(s.ppc), ChildRank(s.cpc);
    AtInspect(o, NamesOf(s), pn, cn);
    AtInspect(o, NamesOf(s), pn + 1, cn);
  }

  lemma CalmVerify(o: Kernel, s: State, ch: Choice)
    requires Ready(o) && Calm(o, s) && s.ppc == PVerify
    ensures StaysCalm(o, ParentVerify(s, ch))
  {
    hide KernelAt, StatusAt, Picked, Found, Held, Serving, Ready, Listing, Send;
    StillPicked(o, NamesOf(s), ParentRank(s.ppc), ChildRank(s.cpc));
    AtVerify(o, NamesOf(s), ChildRank(s.cpc));
  }

  lemma CalmRead(o: Kernel, s: State, ch: Choice)
    requires Ready(o) && Calm(o, s) && Control(s) && s.ppc == PRead
    ensures StaysCalm(o, ParentRead(s, ch))
  {
    hide KernelAt, Picked, Found, Held, Serving, Ready, Listing, InTransit, OfRecord, Stored;
    var cn := ChildRank(s.cpc);
    StillPicked(o, NamesOf(s), 13, cn);
    AtRead(o, NamesOf(s), 14, cn);
    LastPlaces(o, NamesOf(s), 13);
    NoEarlyEnd(s.c.st, s.c.sent, s.p.buffer, s.p.got, s.pipe.data);
    if s.p.got >= RECORD_SIZE {
      AllGot(s.c.st, s.c.sent, s.p.buffer, s.p.got, s.pipe.data);
      assert s.c.st == StatusAt(o.listing, 19, s.c.st.headers);
    }
  }

  lemma NoEarlyEnd(st: ChildStatus, sent: nat, buffer: RecordBytes, got: nat, data: seq<Byte>)
    requires InTransit(st, sent, buffer, got, data)
    ensures data == [] ==> got == sent
  {
  }

  lemma CalmWait(o: Kernel, s: State, ch: Choice)
    requires Ready(o) && Calm(o, s) && (s.ppc == PCloseRead || s.ppc == PWait)
    ensures StaysCalm(o, ParentWait(s, ch))
  {
    hide KernelAt, StatusAt, Picked, Found, Held, Serving, Ready, Listing;
    StillPicked(o, NamesOf(s), ParentRank(s.ppc), ChildRank(s.cpc));
    var pn, cn := ParentRank(s.ppc), ChildRank(s.cpc);
    AtRead(o, NamesOf(s), pn, cn);
    AtRead(o, NamesOf(s), pn + 1, cn);
  }

  lemma CalmDeallocate(o: Kernel, s: State, ch: Choice)
    requires Ready(o) && Calm(o, s) && s.ppc == PDeallocate
    ensures StaysCalm(o, ParentReclaim(s, ch))
  {
    hide KernelAt, StatusAt, Picked, Found, Held, Serving, Ready, Listing, Deallocate;
    StillPicked(o, NamesOf(s), ParentRank(s.ppc), ChildRank(s.cpc));
    AtDeallocate(o, NamesOf(s));
    DeliveredName(o, NamesOf(s), 16, 19);
  }

  lemma CalmDestroyService(o: Kernel, s: State, ch: Choice)
    requires Ready(o) && Calm(o, s) && s.ppc == PDestroy
    ensures StaysCalm(o, ParentReclaim(s, ch))
  {
    hide KernelAt, StatusAt, Picked, Found, Held, Serving, Ready, Listing, Destroy;
    StillPicked(o, NamesOf(s), ParentRank(s.ppc), ChildRank(s.cpc));
    AtDestroy(o, NamesOf(s));
  }

  lemma CalmDropBootstrap(o: Kernel, s: State, ch: Choice)
    requires Ready(o) && Calm(o, s) && s.ppc == PDrop
    ensures StaysCalm(o, ParentCleanup(s, ch))
  {
    hide KernelAt, StatusAt, Picked, Found, Held, Serving, Ready, Listing, Deallocate;
    StillPicked(o, NamesOf(s), ParentRank(s.ppc), ChildRank(s.cpc));
    AtDrop(o, NamesOf(s));
  }

  lemma CalmEnd(o: Kernel, s: State, ch: Choice)
    requires Ready(o) && Calm(o, s) && s.ppc == PBaselineAgain
    ensures StaysCalm(o, ParentCleanup(s, ch))
  {
    hide KernelAt, StatusAt, Picked, Found, Held, Serving, Ready, Listing, Matches;
    StillPicked(o, NamesOf(s), ParentRank(s.ppc), ChildRank(s.cpc));
    if Lists(s.k, Parent, ch.listing) {
      AtBaseline(o, NamesOf(s));
      ListingsMatch(o.parent, o.listing, s.p.r.before, ch.listing);
    }
  }

  lemma DeliveredName(o: Kernel, m: Names, pn: nat, cn: nat)
    requires Picked(o, m, pn, cn) && pn > 9
    ensures m.delivered != MACH_PORT_NULL
  {
    hide SendName, Held, Serving, Found;
  }

  lemma AtBaseline(o: Kernel, m: Names)
    ensures KernelAt(o, m, 19, 19).parent == o.parent && KernelAt(o, m, 19, 19).listing == o.listing
    ensures KernelAt(o, m, 19, 19) == KernelAt(o, m, 20, 19)
  {
    hide Held, Serving, Found;
  }

  lemma AtFork(o: Kernel, m: Names)
    ensures KernelAt(o, m, 6, 0).(childBootstrap := KernelAt(o, m, 6, 0).parentBootstrap) == KernelAt(o, m, 7, 1)
    ensures Picked(o, m, 6, 0) ==> Picked(o, m, 7, 1)
  {
    hide Held, Serving, Found, SendName, FreeName;
  }

  lemma StillServing(o: Kernel, m: Names, cn: nat)
    ensures KernelAt(o, m, 7, cn) == KernelAt(o, m, 8, cn)
  {
    hide Held, Serving, Found;
  }

  lemma CalmParent(o: Kernel, s: State, ch: Choice)
    requires Ready(o) && Calm(o, s) && Control(s)
    ensures StaysCalm(o, ParentNext(s, ch))
  {
    hide Ready, Control, StaysCalm, ParentOpen, ParentCreate, ParentFork, ParentRestore, ParentReceive, ParentInspect,
         ParentVerify, ParentRead, ParentWait, ParentReclaim, ParentCleanup, KernelAt, Picked, Seen, ResultsAt, StatusAt;
    assert ParentRank(s.ppc) <= 6 ==> s.cpc == Unborn;
    assert ParentRank(s.ppc) > 15 ==> s.cpc == Gone;
    match s.ppc
    case PBaseline | PPipe => CalmOpen(o, s, ch);
    case PGetBootstrap => CalmOriginal(o, s, ch);
    case PAllocate => CalmService(o, s, ch);
    case PInsert => CalmServiceSend(o, s, ch);
    case PPublish => CalmPublish(o, s, ch);
    case PFork => CalmFork(o, s, ch);
    case PCloseWrite | PRestore => CalmRestore(o, s, ch);
    case PReceive => CalmDelivery(o, s, ch);
    case PType | PRefs => CalmLook(o, s, ch);
    case PVerify => CalmVerify(o, s, ch);
    case PRead => CalmRead(o, s, ch);
    case PCloseRead | PWait => CalmWait(o, s, ch);
    case PDeallocate => CalmDeallocate(o, s, ch);
    case PDestroy => CalmDestroyService(o, s, ch);
    case PDrop => CalmDropBootstrap(o, s, ch);
    case PBaselineAgain => CalmEnd(o, s, ch);
    case Done => NoStep(o);
  }

  // ---- whole runs ---------------------------------------------------------------------------------------------

  lemma CalmStep(o: Kernel, s: State, m: Move)
    requires Ready(o) && Calm(o, s) && Control(s)
    ensures StaysCalm(o, Next(s, m))
  {
    hide Ready, Calm, Control, StaysCalm, ParentNext, ChildNext, ChildKilled;
    match m
    case ParentMoves(ch) => CalmParent(o, s, ch);
    case ChildMoves(ch) => CalmChild(o, s, ch);
    case ChildDies => CalmKilled(o, s);
  }
}
