/**
 What every run of the MOVE_SEND probe keeps, however it is disturbed, and that it comes to its end:
 some move is always possible, and no run is longer than a number fixed at its start.
 */
module MoveSendProgress {
  import opened Pigeonhole
  import opened Baseline
  import opened MachKernel
  import opened KernelSizes
  import opened PipeTransfer
  import opened MoveSendVerdict
  import opened MoveSend

  // ---- the control invariant ----------------------------------------------------------------------------

  /** The bytes read and the bytes in the pipe are the record's first bytes; the rest of the buffer is untouched. */
  ghost predicate InTransit(st: ChildStatus, sent: nat, buffer: RecordBytes, got: nat, data: seq<Byte>) {
    && got <= sent <= RECORD_SIZE
    && data == Record(st)[got..sent]
    && buffer == Stored(Record(Unreported()), 0, Record(st)[..got])
  }

  ghost predicate Ends(s: State) {
    var pn, cn, forked := ParentRank(s.ppc), ChildRank(s.cpc), s.p.r.forked;
    && (s.cpc == Unborn <==> !forked)
    && (forked ==> pn > 6 && s.p.r.pipeCreated && s.p.r.krPublish == KERN_SUCCESS)
    && (forked && pn > 7 ==> !s.pipe.parentWrites)
    && (s.p.r.pipeCreated ==> pn > 1 && (pn <= 14 ==> s.pipe.parentReads))
    && (s.pipe.childWrites <==> 1 <= cn <= 17)
  }

  ghost predicate Traffic(s: State) {
    && InTransit(s.c.st, s.c.sent, s.p.buffer, s.p.got, s.pipe.data)
    && |s.pipe.data| <= s.pipe.capacity
    && s.pipe.capacity > 0
    && (ChildRank(s.cpc) < 16 ==> s.c.sent == 0)
    && (s.p.r.forked && ParentRank(s.ppc) > 13 ==> s.c.sent == RECORD_SIZE || ChildRank(s.cpc) > 17)
    && (s.p.r.statusRead ==> s.p.r.child == s.c.st && s.c.sent == RECORD_SIZE && s.p.r.forked && ParentRank(s.ppc) > 13)
  }

  /** The namespaces never fill up. */
  ghost predicate Roomy(s: State) {
    && |s.k.parent| < 0x7fff_ff00 + ParentRank(s.ppc)
    && |s.k.child| < 0x7fff_ff00 + ChildRank(s.cpc)
  }

  ghost predicate Control(s: State) {
    Ends(s) && Traffic(s) && Roomy(s)
  }

  /** Steps, bytes and interruptions still to come. */
  function Remaining(s: State): int {
    (20 - ParentRank(s.ppc)) + (19 - ChildRank(s.cpc)) + (RECORD_SIZE - s.c.sent) + (RECORD_SIZE - s.p.got) + s.interrupts
  }

  lemma InitControl(s: State)
    requires Init(s)
    ensures Control(s) && Remaining(s) == 39 + 2 * RECORD_SIZE + s.interrupts
  {
    assert Record(s.c.st)[..0] == [];
  }

  // ---- the child's steps ---------------------------------------------------------------------------------

  /** A step in which the child touches neither the pipe nor its count of bytes. */
  ghost predicate ChildAlone(s: State, t: State) {
    && t.ppc == s.ppc && t.p == s.p && t.pipe == s.pipe && t.interrupts == s.interrupts
    && ChildRank(t.cpc) == ChildRank(s.cpc) + 1
    && t.c.sent == s.c.sent
    && Grown(s.k, Child, t.k)
  }

  /** While nothing is sent the record may change. */
  lemma ChildAloneAdvances(s: State, t: State)
    requires Control(s) && ChildAlone(s, t) && 0 < ChildRank(s.cpc) < 16
    ensures Control(t) && Remaining(t) < Remaining(s)
  {
    hide Stored, Record;
    assert s.c.sent == 0;
    assert Record(t.c.st)[..0] == Record(s.c.st)[..0];
  }

  lemma ArriveAlone(s: State, ch: Choice)
    requires s.cpc == CGetBootstrap || s.cpc == CBaseline
    ensures var n := ChildArrive(s, ch); n.Some? ==> ChildAlone(s, n.value)
  {
    hide GetBootstrap, BootstrapName, Lists, Grown;
    SameSize(s.k, Child);
    GetBootstrapSize(s.k, Child, ch.name);
  }

  lemma AllocateAlone(s: State, ch: Choice)
    requires s.cpc == CAllocate
    ensures var n := ChildCreate(s, ch); n.Some? ==> ChildAlone(s, n.value)
  {
    hide Allocate, MakeSend, Grown;
    SameSize(s.k, Child);
    AllocateSize(s.k, Child, ch.name);
  }

  lemma InsertAlone(s: State, ch: Choice)
    requires s.cpc == CInsert
    ensures var n := ChildCreate(s, ch); n.Some? ==> ChildAlone(s, n.value)
  {
    hide Allocate, MakeSend, Grown;
    SameSize(s.k, Child);
    MakeSendSize(s.k, Child, s.c.cargo);
  }

  lemma InspectAlone(s: State, ch: Choice)
    requires s.cpc == CType || s.cpc == CRefs
    ensures var n := ChildInspect(s, ch); n.Some? ==> ChildAlone(s, n.value)
  {
    hide Type, SendRefs, Grown;
    SameSize(s.k, Child);
  }

  lemma SendAlone(s: State, ch: Choice)
    requires s.cpc == CSend
    ensures var n := ChildSend(s, ch); n.Some? ==> ChildAlone(s, n.value)
  {
    hide Send, Grown;
    SameSize(s.k, Child);
    SendSize(s.k, Child, s.c.service, CopySend, DESCRIPTOR_ID, MoveSend(s.c.cargo));
  }

  lemma InspectSentAlone(s: State, ch: Choice)
    requires s.cpc == CTypeSent || s.cpc == CRefsSent
    ensures var n := ChildInspectSent(s, ch); n.Some? ==> ChildAlone(s, n.value)
  {
    hide Type, SendRefs, Grown;
    SameSize(s.k, Child);
  }

  lemma ReceiveAlone(s: State, ch: Choice)
    requires s.cpc == CReceive
    ensures var n := ChildReceive(s, ch); n.Some? ==> ChildAlone(s, n.value)
  {
    hide Receive, Awaits, DeliveryName, Grown;
    SameSize(s.k, Child);
    var port := Awaits(s.k, Child, s.c.cargo);
    AwaitsQueue(s.k, Child, s.c.cargo);
    if port.Some? && s.k.queues[port.value] != [] {
      ReceiveSize(s.k, Child, port.value, ch.name);
    }
  }

  lemma InspectVerifiedAlone(s: State, ch: Choice)
    requires s.cpc == CTypeVerified || s.cpc == CRefsVerified
    ensures var n := ChildInspectVerified(s, ch); n.Some? ==> ChildAlone(s, n.value)
  {
    hide Type, SendRefs, Grown;
    SameSize(s.k, Child);
  }

  lemma DestroyAlone(s: State, ch: Choice)
    requires s.cpc == CDestroy
    ensures var n := ChildCleanup(s, ch); n.Some? ==> ChildAlone(s, n.value)
  {
    hide Destroy, Lists, Matches, Deallocate, ExitCode, Grown;
    SameSize(s.k, Child);
    DestroySize(s.k, Child, s.c.cargo);
  }

  lemma BaselineAlone(s: State, ch: Choice)
    requires s.cpc == CBaselineAgain
    ensures var n := ChildCleanup(s, ch); n.Some? ==> ChildAlone(s, n.value)
  {
    hide Destroy, Lists, Matches, Deallocate, ExitCode, ToInt, Grown;
    SameSize(s.k, Child);
  }

  lemma DropAlone(s: State, ch: Choice)
    requires s.cpc == CDrop
    ensures var n := ChildCleanup(s, ch); n.Some? ==> ChildAlone(s, n.value)
  {
    hide Destroy, Lists, Matches, Deallocate, ExitCode, ToInt, Grown;
    SameSize(s.k, Child);
    DeallocateSize(s.k, Child, s.c.service);
  }

  lemma MoreSent(st: ChildStatus, sent: nat, n: nat, buffer: RecordBytes, got: nat, data: seq<Byte>)
    requires InTransit(st, sent, buffer, got, data) && sent + n <= RECORD_SIZE
    ensures InTransit(st, sent + n, buffer, got, data + Record(st)[sent..sent + n])
    ensures |data| == sent - got
  {
  }

  lemma MoreGot(st: ChildStatus, sent: nat, buffer: RecordBytes, got: nat, data: seq<Byte>, n: nat)
    requires InTransit(st, sent, buffer, got, data) && n <= |data|
    ensures got + n <= sent && |data| == sent - got
    ensures InTransit(st, sent, Stored(buffer, got, data[..n]), got + n, data[n..])
  {
    hide Record;
    var r, blank := Record(st), Record(Unreported());
    Sliced(r, got, sent, n);
    StoredOn(blank, r[..got], r[got..got + n]);
  }

  lemma Sliced(r: seq<Byte>, got: nat, sent: nat, n: nat)
    requires got + n <= sent <= |r|
    ensures r[got..sent][..n] == r[got..got + n] && r[got..sent][n..] == r[got + n..sent]
    ensures r[..got] + r[got..got + n] == r[..got + n]
  {
  }

  lemma StoredOn(s: seq<Byte>, a: seq<Byte>, b: seq<Byte>)
    requires |a| + |b| <= |s|
    ensures Stored(Stored(s, 0, a), |a|, b) == Stored(s, 0, a + b)
  {
  }

  lemma AllGot(st: ChildStatus, sent: nat, buffer: RecordBytes, got: nat, data: seq<Byte>)
    requires InTransit(st, sent, buffer, got, data) && got >= RECORD_SIZE
    ensures sent == RECORD_SIZE && OfRecord(buffer) == st
  {
    hide OfRecord;
    assert buffer == Record(st);
    RecordRoundTrip(st);
  }

  ghost predicate Advances(s: State, next: Option<State>) {
    next.Some? ==> Control(next.value) && Remaining(next.value) < Remaining(s)
  }

  lemma WriteAdvances(s: State, ch: Choice)
    requires Control(s) && s.cpc == CWrite
    ensures Advances(s, ChildWrite(s, ch))
    ensures var n := ChildWrite(s, ch); n.Some? && n.value.disturbed ==> s.disturbed
  {
    hide InTransit, Record;
    if s.c.sent + ch.count <= RECORD_SIZE {
      MoreSent(s.c.st, s.c.sent, ch.count, s.p.buffer, s.p.got, s.pipe.data);
    }
  }

  lemma LeaveAdvances(s: State, ch: Choice)
    requires Control(s) && (s.cpc == CClose || s.cpc == CExit)
    ensures Advances(s, ChildLeave(s, ch))
  {
    hide InTransit, Exit;
    ExitSize(s.k);
  }

  lemma KilledAdvances(s: State)
    requires Control(s)
    ensures Advances(s, ChildKilled(s))
  {
    hide InTransit, Exit;
    ExitSize(s.k);
  }

  lemma ChildAdvances(s: State, ch: Choice)
    requires Control(s)
    ensures Advances(s, ChildNext(s, ch))
  {
    hide Control, ChildAlone, ChildArrive, ChildCreate, ChildInspect, ChildSend, ChildInspectSent, ChildReceive,
         ChildInspectVerified, ChildCleanup, ChildWrite, ChildLeave;
    match s.cpc {
    case CGetBootstrap | CBaseline => ArriveAlone(s, ch);
    case CAllocate => AllocateAlone(s, ch);
    case CInsert => InsertAlone(s, ch);
    case CType | CRefs => InspectAlone(s, ch);
    case CSend => SendAlone(s, ch);
    case CTypeSent | CRefsSent => InspectSentAlone(s, ch);
    case CReceive => ReceiveAlone(s, ch);
    case CTypeVerified | CRefsVerified => InspectVerifiedAlone(s, ch);
    case CDestroy => DestroyAlone(s, ch);
    case CBaselineAgain => BaselineAlone(s, ch);
    case CDrop => DropAlone(s, ch);
    case CWrite => WriteAdvances(s, ch);
    case CClose | CExit => LeaveAdvances(s, ch);
    case _ =>
    }
    var n := ChildNext(s, ch);
    if n.Some? && ChildRank(s.cpc) < 16 {
      ChildAloneAdvances(s, n.value);
    }
  }

  // ---- the parent's steps ------------------------------------------------------------------------------

  /** A step in which the parent touches no pipe, no child and no byte of the record. */
  ghost predicate ParentAlone(s: State, t: State) {
    && t.cpc == s.cpc && t.c == s.c && t.pipe == s.pipe && t.interrupts == s.interrupts
    && ParentRank(t.ppc) == ParentRank(s.ppc) + 1
    && t.p.buffer == s.p.buffer && t.p.got == s.p.got
    && t.p.r.pipeCreated == s.p.r.pipeCreated && (s.p.r.forked ==> t.p.r.krPublish == s.p.r.krPublish || ParentRank(s.ppc) < 6)
    && t.p.r.forked == s.p.r.forked && t.p.r.statusRead == s.p.r.statusRead && t.p.r.child == s.p.r.child
    && Grown(s.k, Parent, t.k)
  }

  lemma ParentAloneAdvances(s: State, t: State)
    requires Control(s) && ParentAlone(s, t) && s.ppc !in {PFork, PCloseWrite, PRead, PCloseRead}
    ensures Control(t) && Remaining(t) < Remaining(s)
  {
    hide InTransit;
  }

  lemma OpenAdvances(s: State, ch: Choice)
    requires Control(s) && (s.ppc == PBaseline || s.ppc == PPipe)
    ensures Advances(s, ParentOpen(s, ch))
  {
    hide InTransit, Lists;
  }

  lemma OriginalAlone(s: State, ch: Choice)
    requires s.ppc == PGetBootstrap
    ensures var n := ParentCreate(s, ch); n.Some? ==> ParentAlone(s, n.value)
  {
    hide GetBootstrap, Allocate, MakeSend, BootstrapName, Grown;
    SameSize(s.k, Parent);
    GetBootstrapSize(s.k, Parent, ch.name);
  }

  lemma AllocateServiceAlone(s: State, ch: Choice)
    requires s.ppc == PAllocate
    ensures var n := ParentCreate(s, ch); n.Some? ==> ParentAlone(s, n.value)
  {
    hide GetBootstrap, Allocate, MakeSend, BootstrapName, Grown;
    SameSize(s.k, Parent);
    AllocateSize(s.k, Parent, ch.name);
  }

  lemma InsertServiceAlone(s: State, ch: Choice)
    requires s.ppc == PInsert
    ensures var n := ParentCreate(s, ch); n.Some? ==> ParentAlone(s, n.value)
  {
    hide GetBootstrap, Allocate, MakeSend, BootstrapName, Grown;
    SameSize(s.k, Parent);
    MakeSendSize(s.k, Parent, s.p.service);
  }

  lemma PublishAlone(s: State, ch: Choice)
    requires s.ppc == PPublish
    ensures var n := ParentFork(s, ch); n.Some? ==> ParentAlone(s, n.value)
  {
    hide SetBootstrap, Grown;
    SameSize(s.k, Parent);
    SetBootstrapSize(s.k, Parent, s.p.service);
  }

  lemma ForkAdvances(s: State, ch: Choice)
    requires Control(s) && s.ppc == PFork
    ensures Advances(s, ParentFork(s, ch))
  {
    hide InTransit, SetBootstrap;
  }

  lemma RestoreAdvances(s: State, ch: Choice)
    requires Control(s) && (s.ppc == PCloseWrite || s.ppc == PRestore)
    ensures Advances(s, ParentRestore(s, ch))
  {
    hide InTransit, SetBootstrap;
    SetBootstrapSize(s.k, Parent, s.p.bootstrap);
  }

  lemma ParentReceiveAlone(s: State, ch: Choice)
    requires s.ppc == PReceive
    ensures var n := ParentReceive(s, ch); n.Some? ==> ParentAlone(s, n.value)
  {
    hide Receive, Awaits, DeliveryName, Grown;
    SameSize(s.k, Parent);
    var port := Awaits(s.k, Parent, s.p.service);
    AwaitsQueue(s.k, Parent, s.p.service);
    if port.Some? && s.k.queues[port.value] != [] {
      ReceiveSize(s.k, Parent, port.value, ch.name);
    }
  }

  lemma ParentInspectAlone(s: State, ch: Choice)
    requires s.ppc == PType || s.ppc == PRefs
    ensures var n := ParentInspect(s, ch); n.Some? ==> ParentAlone(s, n.value)
  {
    hide Type, SendRefs, Grown;
    SameSize(s.k, Parent);
  }

  lemma VerifyAlone(s: State, ch: Choice)
    requires s.ppc == PVerify
    ensures var n := ParentVerify(s, ch); n.Some? ==> ParentAlone(s, n.value)
  {
    hide Send, Grown;
    SameSize(s.k, Parent);
    SendSize(s.k, Parent, s.p.r.delivered, CopySend, VERIFY_ID, NoDescriptor);
  }

  lemma ReadAdvances(s: State, ch: Choice)
    requires Control(s) && s.ppc == PRead
    ensures Advances(s, ParentRead(s, ch))
  {
    hide InTransit, Stored, OfRecord, Control, ParentRead;
    if !s.p.r.forked || s.p.got >= RECORD_SIZE {
      ReadOut(s, ch);
    } else {
      ReadOn(s, ch);
    }
  }

  lemma ReadOut(s: State, ch: Choice)
    requires Control(s) && s.ppc == PRead && (!s.p.r.forked || s.p.got >= RECORD_SIZE)
    ensures Advances(s, ParentRead(s, ch))
  {
    hide InTransit, Stored, OfRecord;
    if s.p.got >= RECORD_SIZE {
      AllGot(s.c.st, s.c.sent, s.p.buffer, s.p.got, s.pipe.data);
    }
  }

  lemma Fetched(s: State, n: nat)
    requires Control(s) && s.ppc == PRead && s.p.r.forked && n <= |s.pipe.data| && s.p.got + n <= RECORD_SIZE
    requires InTransit(s.c.st, s.c.sent, Stored(s.p.buffer, s.p.got, s.pipe.data[..n]), s.p.got + n, s.pipe.data[n..])
    ensures Control(s.(p := s.p.(buffer := Stored(s.p.buffer, s.p.got, s.pipe.data[..n]), got := s.p.got + n),
                       pipe := s.pipe.(data := s.pipe.data[n..])))
  {
    hide InTransit, Stored;
  }

  lemma Interrupted(s: State)
    requires Control(s) && s.interrupts > 0
    ensures Control(s.(interrupts := s.interrupts - 1))
  {
    hide InTransit;
  }

  lemma EndOfFile(s: State)
    requires Control(s) && s.ppc == PRead && s.p.r.forked && !s.pipe.childWrites
    ensures Control(s.(ppc := PCloseRead, p := s.p.(r := s.p.r.(statusRead := false, child := OfRecord(s.p.buffer)))))
  {
    hide InTransit, OfRecord;
  }

  lemma ReadOn(s: State, ch: Choice)
    requires Control(s) && s.ppc == PRead && s.p.r.forked && s.p.got < RECORD_SIZE
    ensures Advances(s, ParentRead(s, ch))
  {
    hide Control, InTransit, Stored, OfRecord;
    if ch.fail {
      if s.interrupts > 0 {
        Interrupted(s);
      }
    } else if s.pipe.data != [] {
      if ch.count <= |s.pipe.data| && s.p.got + ch.count <= RECORD_SIZE {
        Transit(s);
        MoreGot(s.c.st, s.c.sent, s.p.buffer, s.p.got, s.pipe.data, ch.count);
        Fetched(s, ch.count);
      }
    } else if !s.pipe.childWrites {
      EndOfFile(s);
    }
  }

  lemma Transit(s: State)
    requires Control(s)
    ensures InTransit(s.c.st, s.c.sent, s.p.buffer, s.p.got, s.pipe.data)
  {
    hide InTransit;
  }

  lemma WaitAdvances(s: State, ch: Choice)
    requires Control(s) && (s.ppc == PCloseRead || s.ppc == PWait)
    ensures Advances(s, ParentWait(s, ch))
  {
    hide InTransit;
  }

  lemma DeallocateAlone(s: State, ch: Choice)
    requires s.ppc == PDeallocate
    ensures var n := ParentReclaim(s, ch); n.Some? ==> ParentAlone(s, n.value)
  {
    hide Destroy, Deallocate, Grown;
    if s.p.r.delivered == MACH_PORT_NULL {
      SameSize(s.k, Parent);
    } else {
      DeallocateSize(s.k, Parent, s.p.r.delivered);
    }
  }

  lemma DestroyServiceAlone(s: State, ch: Choice)
    requires s.ppc == PDestroy
    ensures var n := ParentReclaim(s, ch); n.Some? ==> ParentAlone(s, n.value)
  {
    hide Destroy, Deallocate, Grown;
    SameSize(s.k, Parent);
    DestroySize(s.k, Parent, s.p.service);
  }

  lemma DropBootstrapAlone(s: State, ch: Choice)
    requires s.ppc == PDrop
    ensures var n := ParentCleanup(s, ch); n.Some? ==> ParentAlone(s, n.value)
  {
    hide Destroy, Lists, Matches, Deallocate, Grown;
    SameSize(s.k, Parent);
    DeallocateSize(s.k, Parent, s.p.bootstrap);
  }

  lemma BaselineAgainAlone(s: State, ch: Choice)
    requires s.ppc == PBaselineAgain
    ensures var n := ParentCleanup(s, ch); n.Some? ==> ParentAlone(s, n.value)
  {
    hide Destroy, Lists, Matches, Deallocate, Grown;
    SameSize(s.k, Parent);
  }

  lemma SetBootstrapSize(k: Kernel, t: Task, n: Name)
    ensures Grown(k, t, SetBootstrap(k, t, n).k)
  {
  }

  lemma ParentAdvances(s: State, ch: Choice)
    requires Control(s)
    ensures Advances(s, ParentNext(s, ch))
  {
    hide Control, ParentAlone, ParentOpen, ParentCreate, ParentFork, ParentRestore, ParentReceive, ParentInspect,
         ParentVerify, ParentRead, ParentWait, ParentReclaim, ParentCleanup;
    match s.ppc {
    case PBaseline | PPipe => OpenAdvances(s, ch);
    case PGetBootstrap => OriginalAlone(s, ch);
    case PAllocate => AllocateServiceAlone(s, ch);
    case PInsert => InsertServiceAlone(s, ch);
    case PPublish => PublishAlone(s, ch);
    case PFork => ForkAdvances(s, ch);
    case PCloseWrite | PRestore => RestoreAdvances(s, ch);
    case PReceive => ParentReceiveAlone(s, ch);
    case PType | PRefs => ParentInspectAlone(s, ch);
    case PVerify => VerifyAlone(s, ch);
    case PRead => ReadAdvances(s, ch);
    case PCloseRead | PWait => WaitAdvances(s, ch);
    case PDeallocate => DeallocateAlone(s, ch);
    case PDestroy => DestroyServiceAlone(s, ch);
    case PDrop => DropBootstrapAlone(s, ch);
    case PBaselineAgain => BaselineAgainAlone(s, ch);
    case Done =>
    }
    var n := ParentNext(s, ch);
    if n.Some? && s.ppc in {PGetBootstrap, PAllocate, PInsert, PPublish, PReceive, PType, PRefs, PVerify,
                            PDeallocate, PDestroy, PDrop, PBaselineAgain} {
      ParentAloneAdvances(s, n.value);
    }
  }

  // ---- runs -----------------------------------------------------------------------------------------------

  lemma StepAdvances(s: State, m: Move)
    requires Control(s)
    ensures Advances(s, Next(s, m))
  {
    hide Control, ParentNext, ChildNext, ChildKilled;
    match m
    case ParentMoves(ch) => ParentAdvances(s, ch);
    case ChildMoves(ch) => ChildAdvances(s, ch);
    case ChildDies => KilledAdvances(s);
  }

  /** Every state of every run keeps the invariant, and every run ends. */
  lemma {:induction false} RunAdvances(run: seq<State>)
    requires Run(run)
    ensures Control(Last(run)) && Remaining(Last(run)) + |run| - 1 <= Remaining(run[0])
  {
    hide Control, Next, Init, Remaining, Steps;
    if |run| == 1 {
      InitControl(run[0]);
    } else {
      assert Steps(run[|run| - 2], run[|run| - 1]);
      RunAdvances(run[..|run| - 1]);
      StepsAdvance(run[|run| - 2], run[|run| - 1]);
    }
  }

  lemma StepsAdvance(s: State, t: State)
    requires Control(s) && Steps(s, t)
    ensures Control(t) && Remaining(t) < Remaining(s)
  {
    hide Control, Next, Remaining;
    var m :| Next(s, m) == Some(t);
    StepAdvances(s, m);
  }

  /** No run makes more than 279 steps and one for each interruption. */
  lemma EveryRunEnds(run: seq<State>)
    requires Run(run)
    ensures |run| - 1 <= 39 + 2 * RECORD_SIZE + run[0].interrupts
  {
    hide Control, Init, Steps;
    RunAdvances(run);
    InitControl(run[0]);
    NothingBelowZero(Last(run));
  }

  lemma NothingBelowZero(s: State)
    requires Control(s)
    ensures Remaining(s) >= 0
  {
  }
}
