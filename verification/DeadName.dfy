/**
 One case of the dead-name probe: a MOVE_SEND descriptor whose source is a dead name, or a name that
 does not exist, sent by a task to itself on a contract-obeying kernel.
 */
module DeadName {
  import opened Baseline
  import opened MachKernel
  import opened Pigeonhole
  import opened KernelChoices
  import opened UnusedName

  /** The namespace with the service port, and the kernel around it. */
  function Served(o: Kernel, service: Name): Space {
    o.parent[service := Rights(o.next, true, 1)]
  }

  function ServedKernel(o: Kernel, service: Name, sp: Space, messages: seq<Message>): Kernel {
    o.(parent := sp, queues := o.queues[o.next := messages], next := o.next + 1)
  }

  // ---- the calls ------------------------------------------------------------------------------------------------

  lemma AtAllocate(o: Kernel, service: Name)
    requires Ready(o) && FreeName(o.parent, service)
    ensures var k := Allocate(o, Parent, service); var a := MakeSend(k.parent, service);
            a.kr == KERN_SUCCESS && k.(parent := a.space) == ServedKernel(o, service, Served(o, service), [])
  {
    hide Ready;
  }

  /** A dead source is consumed and the message is queued. */
  lemma DeadSent(o: Kernel, service: Name, source: Name, id: Word)
    requires FreeName(o.parent, service) && FreeName(Served(o, service), source)
    ensures Send(ServedKernel(o, service, Served(o, service)[source := Dead(1)], []), Parent, service, CopySend, id, MoveSend(source))
              == KernelAnswer(ServedKernel(o, service, Served(o, service), [Message(id, CarriedDead)]), MACH_MSG_SUCCESS)
  {
    var sp := Served(o, service)[source := Dead(1)];
    var k := ServedKernel(o, service, sp, []);
    Undo(Served(o, service), source, Dead(1));
    assert source != service;
    assert CopyinHeader(sp, service, CopySend) == Some(Copyin(sp, o.next));
    assert CopyinDescriptor(sp, MoveSend(source)) == Some(Copyin(Served(o, service), CarriedDead));
    hide Served, CopyinHeader, CopyinDescriptor, Send;
    SentFirst(k, Parent, service, CopySend, id, MoveSend(source), o.next, sp, Served(o, service), CarriedDead);
    assert k.queues[o.next := [Message(id, CarriedDead)]] == o.queues[o.next := [Message(id, CarriedDead)]];
  }

  /** A nonexistent source is refused, and nothing changes. */
  lemma NonexistentRefused(o: Kernel, service: Name, source: Name, id: Word)
    requires FreeName(o.parent, service) && source !in Served(o, service)
    ensures var k := ServedKernel(o, service, Served(o, service), []);
            Send(k, Parent, service, CopySend, id, MoveSend(source)) == KernelAnswer(k, MACH_SEND_INVALID_RIGHT)
  {
  }

  lemma AtReceive(o: Kernel, service: Name, messages: seq<Message>, sp: Space)
    requires service in sp && sp[service] == Rights(o.next, true, 1)
    ensures var k := ServedKernel(o, service, sp, messages);
            Awaits(k, Parent, service) == Some(o.next) && o.next in k.queues && k.queues[o.next] == messages
  {
  }

  lemma DeadReceived(o: Kernel, service: Name, delivered: Name, id: Word, k: Kernel)
    requires k == ServedKernel(o, service, Served(o, service), [Message(id, CarriedDead)]) && FreeName(Served(o, service), delivered)
    ensures Receive(k, Parent, o.next, delivered)
              == Received(ServedKernel(o, service, Served(o, service)[delivered := Dead(1)], []), Message(id, CarriedDead), delivered)
    ensures Deallocate(Served(o, service)[delivered := Dead(1)], delivered) == Answer(Served(o, service), KERN_SUCCESS)
  {
    Undo(Served(o, service), delivered, Dead(1));
    assert k.queues[o.next := []] == o.queues[o.next := []];
    hide Served;
  }

  lemma AtDestroy(o: Kernel, service: Name)
    requires Ready(o) && FreeName(o.parent, service)
    ensures var a := Destroy(ServedKernel(o, service, Served(o, service), []), Parent, service);
            a.kr == KERN_SUCCESS && a.k.parent == o.parent && a.k.queues == o.queues
  {
    var k := ServedKernel(o, service, Served(o, service), []);
    assert o.next !in o.queues;
    BuriedElsewhere(o.parent, {o.next}, o.next);
    hide Ready, Below, WellFormed, Buried, Destroy;
    Undo(o.parent, service, Rights(o.next, true, 1));
    Undo(o.queues, o.next, []);
    Destroyed(k, Parent, service);
  }

  /** `mach_port_names`, in any order. */
  method ListNames(sp: Space, supported: bool) returns (s: Snapshot)
    ensures Listing(sp, supported, s)
  {
    if !supported {
      return Snapshot([], [], false, KERN_NOT_SUPPORTED);
    }
    var names: seq<Name>, types: seq<Word>, rest := [], [], sp.Keys;
    while rest != {}
      invariant rest <= sp.Keys && |names| == |types|
      invariant forall n :: n in sp.Keys <==> n in names || n in rest
      invariant forall i | 0 <= i < |names| :: names[i] in sp && names[i] !in rest && types[i] == TypeOf(sp[names[i]])
      invariant NoDuplicates(names)
      decreases rest
    {
      var n :| n in rest;
      names, types, rest := names + [n], types + [TypeOf(sp[n])], rest - {n};
    }
    return Snapshot(names, types, true, KERN_SUCCESS);
  }

  lemma ListingSized(sp: Space, supported: bool, s: Snapshot)
    requires Listing(sp, supported, s) && |sp| < 0x8000_0000
    ensures Sized(s)
  {
    if supported {
      ElementCount(s.names);
    }
  }

  // ---- the case -------------------------------------------------------------------------------------------------

  /** The record of a case. The header bits and dispositions it also notes are not looked at. */
  class Case {
    const useDeadName: bool
    var before: Snapshot
    var after: Snapshot
    var service: Name
    var source: Name
    var delivered: Name
    var krAllocService: Word
    var krInsertService: Word
    var krSource: Word
    var krTypeBefore: Word
    var krRefsBefore: Word
    var krTypeAfter: Word
    var krRefsAfter: Word
    var krDeallocateSource: Word
    var krDeallocateDelivered: Word
    var krDestroy: Word
    var mrSend: Word
    var mrReceive: Word
    var typeBefore: Word
    var refsBefore: Word
    var descriptors: Word
    var cleanupOk: bool
    var cleanupDelta: int

    constructor (useDeadName: bool)
      ensures this.useDeadName == useDeadName && source == delivered == MACH_PORT_NULL
      ensures krDeallocateDelivered == KERN_FAILURE
    {
      this.useDeadName := useDeadName;
      before, after := Snapshot([], [], false, 0), Snapshot([], [], false, 0);
      service, source, delivered := MACH_PORT_NULL, MACH_PORT_NULL, MACH_PORT_NULL;
      krAllocService, krInsertService, krSource := KERN_FAILURE, KERN_FAILURE, KERN_FAILURE;
      krTypeBefore, krRefsBefore, krTypeAfter, krRefsAfter := KERN_FAILURE, KERN_FAILURE, KERN_FAILURE, KERN_FAILURE;
      krDeallocateSource, krDeallocateDelivered, krDestroy := KERN_FAILURE, KERN_FAILURE, KERN_FAILURE;
      mrSend, mrReceive := MACH_SEND_INVALID_DEST, MACH_RCV_INVALID_NAME;
      typeBefore, refsBefore, descriptors, cleanupOk, cleanupDelta := 0, 0, 0, false, 0;
    }

    predicate DeadNameConsumedAndDelivered()
      reads this
    {
      && useDeadName
      && krTypeBefore == KERN_SUCCESS && typeBefore == TYPE_DEAD_NAME
      && krRefsBefore == KERN_SUCCESS && refsBefore == 1
      && mrSend == MACH_MSG_SUCCESS
      && krTypeAfter == KERN_INVALID_NAME && krRefsAfter == KERN_INVALID_NAME
      && mrReceive == MACH_MSG_SUCCESS && descriptors == 1
      && krDeallocateDelivered == KERN_SUCCESS && krDeallocateSource == KERN_INVALID_NAME
    }

    predicate NonexistentRejected()
      reads this
    {
      && krTypeBefore == KERN_INVALID_NAME && krRefsBefore == KERN_INVALID_NAME
      && mrSend == MACH_SEND_INVALID_RIGHT
      && krTypeAfter == KERN_INVALID_NAME && krRefsAfter == KERN_INVALID_NAME
      && mrReceive == MACH_RCV_TIMED_OUT
    }

    predicate Ok()
      reads this
    {
      && !BlocksProbe(before)
      && krAllocService == KERN_SUCCESS && krInsertService == KERN_SUCCESS && krSource == KERN_SUCCESS
      && (if useDeadName then DeadNameConsumedAndDelivered() else NonexistentRejected())
      && krDestroy == KERN_SUCCESS
      && !BlocksProbe(after)
      && cleanupOk
    }

    /** The source: a dead name made for the case, or a name that should not exist. */
    method PickSource(sp: Space) returns (more: Space)
      requires |sp| < 0x8000_0000
      modifies this`source, this`krSource
      ensures krSource == KERN_SUCCESS
      ensures if useDeadName then FreeName(sp, source) && more == sp[source := Dead(1)]
              else ValidName(source) && more == sp && (source !in sp <==> SomeUnused(sp.Keys))
    {
      more := sp;
      krSource := KERN_SUCCESS;
      if useDeadName {
        ghost var free := FreeNameExists(sp);
        var m: Name :| FreeName(sp, m);
        source := m;
        more := sp[m := Dead(1)];
      } else {
        CandidatesDistinct();
        hide SomeUnused, Candidates;
        source := FindNonexistent(sp.Keys);
      }
    }

    /** Snapshot, service port and source name. */
    method SetUp(o: Kernel) returns (k: Kernel)
      requires Ready(o)
      modifies this
      ensures Listing(o.parent, o.listing, before) && FreeName(o.parent, service)
      ensures krAllocService == krInsertService == krSource == KERN_SUCCESS
      ensures useDeadName ==> FreeName(Served(o, service), source)
      ensures !useDeadName ==> ValidName(source) && (source !in Served(o, service) <==> SomeUnused(Served(o, service).Keys))
      ensures k == ServedKernel(o, service, if useDeadName then Served(o, service)[source := Dead(1)] else Served(o, service), [])
      ensures delivered == old(delivered) && krDeallocateDelivered == old(krDeallocateDelivered)
    {
      RoomForMore(o);
      hide Ready, Listing, SomeUnused, Served, Allocate, MakeSend;
      before := ListNames(o.parent, o.listing);
      ghost var free := FreeNameExists(o.parent);
      var n: Name :| FreeName(o.parent, n);
      service := n;
      AtAllocate(o, n);
      RoomServed(o, n);
      k := Allocate(o, Parent, n);
      krAllocService := KERN_SUCCESS;
      var a := MakeSend(k.parent, n);
      k := k.(parent := a.space);
      krInsertService := a.kr;
      assert k == ServedKernel(o, n, Served(o, n), []);
      var sp := PickSource(k.parent);
      k := k.(parent := sp);
    }

    /** The source before the message. */
    method Look(sp: Space)
      modifies this`krTypeBefore, this`typeBefore, this`krRefsBefore, this`refsBefore
      ensures krTypeBefore == krRefsBefore == if source in sp then KERN_SUCCESS else KERN_INVALID_NAME
      ensures useDeadName && source in sp && sp[source] == Dead(1) ==> typeBefore == TYPE_DEAD_NAME && refsBefore == 1
    {
      var t := Type(sp, source);
      krTypeBefore, typeBefore := t.kr, t.value;
      var n := if useDeadName then DeadRefs(sp, source) else SendRefs(sp, source);
      krRefsBefore, refsBefore := n.kr, n.value;
    }

    /** The source is sent, and looked at again; then the message is awaited. */
    method Exchange(o: Kernel, sp: Space, id: Word) returns (k: Kernel)
      requires FreeName(o.parent, service) && FreeName(Served(o, service), source)
      requires |Served(o, service)| < 0x8000_0000
      requires sp == if useDeadName then Served(o, service)[source := Dead(1)] else Served(o, service)
      modifies this`mrSend, this`krTypeAfter, this`krRefsAfter, this`mrReceive, this`delivered, this`descriptors,
        this`krDeallocateDelivered
      ensures k == ServedKernel(o, service, Served(o, service), [])
      ensures mrSend == if useDeadName then MACH_MSG_SUCCESS else MACH_SEND_INVALID_RIGHT
      ensures krTypeAfter == krRefsAfter == KERN_INVALID_NAME
      ensures mrReceive == if useDeadName then MACH_MSG_SUCCESS else MACH_RCV_TIMED_OUT
      ensures useDeadName ==> descriptors == 1 && krDeallocateDelivered == KERN_SUCCESS
    {
      hide Served, Send, Awaits, Receive, Deallocate;
      k := ServedKernel(o, service, sp, []);
      if useDeadName {
        DeadSent(o, service, source, id);
      } else {
        NonexistentRefused(o, service, source, id);
      }
      var a := Send(k, Parent, service, CopySend, id, MoveSend(source));
      k, mrSend := a.k, a.kr;
      krTypeAfter := Type(k.parent, source).kr;
      var n := if useDeadName then DeadRefs(k.parent, source) else SendRefs(k.parent, source);
      krRefsAfter := n.kr;
      ServiceIsThere(o, service);
      AtReceive(o, service, if useDeadName then [Message(id, CarriedDead)] else [], Served(o, service));
      var port := Awaits(k, Parent, service).value;
      if k.queues[port] != [] {
        ghost var free := FreeNameExists(k.parent);
        var d: Name :| FreeName(k.parent, d);
        DeadReceived(o, service, d, id, k);
        var r := Receive(k, Parent, port, d);
        k, mrReceive, delivered := r.k, MACH_MSG_SUCCESS, r.name;
        descriptors := DescriptorCount(r.message);
        var b := Deallocate(k.parent, delivered);
        k, krDeallocateDelivered := k.(parent := b.space), b.kr;
      } else {
        mrReceive := MACH_RCV_TIMED_OUT;
      }
    }

    /** The second snapshot, and what it shows. */
    method CompareAgain(o: Kernel, sp: Space)
      requires Listing(o.parent, o.listing, before) && sp == o.parent && |sp| < 0x8000_0000
      modifies this`after, this`cleanupOk, this`cleanupDelta
      ensures cleanupOk && cleanupDelta == 0 && !BlocksProbe(before) && !BlocksProbe(after)
    {
      hide Listing, Matches, BlocksProbe;
      ListingSized(sp, o.listing, before);
      after := ListNames(sp, o.listing);
      ListingSized(sp, o.listing, after);
      ListingsMatch(sp, o.listing, before, after);
      ListingsMatch(sp, o.listing, after, after);
      cleanupOk, cleanupDelta := Compare(before, after);
    }

    /** The last calls: the source, where it should be dead, and the service port. */
    method Release(o: Kernel, before0: Kernel) returns (k: Kernel)
      requires Ready(o) && FreeName(o.parent, service) && source !in Served(o, service) && source != MACH_PORT_NULL
      requires before0 == ServedKernel(o, service, Served(o, service), [])
      requires Listing(o.parent, o.listing, before)
      modifies this`krDeallocateSource, this`krDestroy, this`after, this`cleanupOk, this`cleanupDelta
      ensures k.parent == o.parent && k.queues == o.queues
      ensures useDeadName ==> krDeallocateSource == KERN_INVALID_NAME
      ensures krDestroy == KERN_SUCCESS
      ensures cleanupOk && cleanupDelta == 0 && !BlocksProbe(before) && !BlocksProbe(after)
    {
      RoomForMore(o);
      AtDestroy(o, service);
      hide Ready, Listing, Destroy, Served, BlocksProbe;
      k := before0;
      if useDeadName {
        var a := Deallocate(k.parent, source);
        k, krDeallocateSource := k.(parent := a.space), a.kr;
      }
      var d := Destroy(k, Parent, service);
      k, krDestroy := d.k, d.kr;
      CompareAgain(o, k.parent);
    }

    /** The calls after the first look, when the source is as it should be. */
    method Finish(o: Kernel, sp: Space, id: Word) returns (k: Kernel)
      requires Ready(o) && FreeName(o.parent, service) && FreeName(Served(o, service), source)
      requires sp == if useDeadName then Served(o, service)[source := Dead(1)] else Served(o, service)
      requires Listing(o.parent, o.listing, before)
      requires krAllocService == krInsertService == krSource == KERN_SUCCESS
      requires krTypeBefore == krRefsBefore == if useDeadName then KERN_SUCCESS else KERN_INVALID_NAME
      requires useDeadName ==> typeBefore == TYPE_DEAD_NAME && refsBefore == 1
      modifies this`mrSend, this`krTypeAfter, this`krRefsAfter, this`mrReceive, this`delivered, this`descriptors,
        this`krDeallocateDelivered, this`krDeallocateSource, this`krDestroy, this`after, this`cleanupOk, this`cleanupDelta
      ensures Ok() && cleanupDelta == 0 && k.parent == o.parent && k.queues == o.queues
    {
      hide Ready, Served, ServedKernel, FreeName, Listing, BlocksProbe;
      RoomServed(o, service);
      NameIsFree(Served(o, service), source);
      k := Exchange(o, sp, id);
      k := Release(o, k);
      if useDeadName {
        assert DeadNameConsumedAndDelivered();
      } else {
        assert NonexistentRejected();
      }
    }

    /**
     The whole case. With a dead name it always turns out as accepted; with a nonexistent one exactly
     if one of the names tried is unused. Otherwise the source exists, and whatever the later calls do
     the case is not accepted.
     */
    method Run(o: Kernel, id: Word) returns (k: Kernel)
      requires Ready(o) && source == delivered == MACH_PORT_NULL
      modifies this
      ensures if useDeadName || SomeUnused(Served(o, service).Keys) then Ok() && cleanupDelta == 0 && k.parent == o.parent && k.queues == o.queues
              else krTypeBefore == KERN_SUCCESS && !Ok()
    {
      hide Ready, Served, Listing, SomeUnused, BlocksProbe, Candidate, Candidates;
      k := SetUp(o);
      assert k.parent == if useDeadName then Served(o, service)[source := Dead(1)] else Served(o, service);
      Look(k.parent);
      if !useDeadName && krTypeBefore == KERN_SUCCESS {
        assert !NonexistentRejected();
        return;
      }
      k := Finish(o, k.parent, id);
    }
  }

  // ---- what acceptance says --------------------------------------------------------------------------------------

  /** Both listings are usable, every call around the message worked, and the namespace was found unchanged. */
  ghost predicate Surrounded(c: Case)
    reads c
  {
    && Known(c.before) && Known(c.after) && c.cleanupOk
    && c.krAllocService == c.krInsertService == c.krSource == c.krDestroy == KERN_SUCCESS
  }

  /** Before the message the source has the type and the one reference of a dead name, or names nothing. */
  ghost predicate SourceBefore(c: Case)
    reads c
  {
    if c.useDeadName then c.krTypeBefore == c.krRefsBefore == KERN_SUCCESS && c.typeBefore == TYPE_DEAD_NAME && c.refsBefore == 1
    else c.krTypeBefore == c.krRefsBefore == KERN_INVALID_NAME
  }

  /** After the message it names nothing, not even for the call that gives it back. */
  ghost predicate SourceAfter(c: Case)
    reads c
  {
    c.krTypeAfter == c.krRefsAfter == KERN_INVALID_NAME && (c.useDeadName ==> c.krDeallocateSource == KERN_INVALID_NAME)
  }

  /** A dead name was sent and delivered as one right to give back; a nonexistent one was refused, and nothing came. */
  ghost predicate MessageFate(c: Case)
    reads c
  {
    if c.useDeadName then
      c.mrSend == c.mrReceive == MACH_MSG_SUCCESS && c.descriptors == 1 && c.krDeallocateDelivered == KERN_SUCCESS
    else c.mrSend == MACH_SEND_INVALID_RIGHT && c.mrReceive == MACH_RCV_TIMED_OUT
  }

  /** Acceptance, for any record of a case whatever the kernel answered. */
  lemma AcceptedExactly(c: Case)
    ensures c.Ok() <==> Surrounded(c) && SourceBefore(c) && MessageFate(c) && SourceAfter(c)
  {
  }

  /** With an honest comparison on a kernel that lists distinct entries, acceptance means an unchanged namespace. */
  lemma AcceptedMeansUnchanged(c: Case)
    requires c.Ok() && c.cleanupOk == Matches(c.before, c.after) && Genuine(c.before) && Genuine(c.after)
    ensures Unchanged(c.before, c.after)
  {
    hide Matches, Unchanged, Genuine;
    MatchMeansUnchanged(c.before, c.after);
  }

  lemma NameIsFree(sp: Space, n: Name)
    requires FreeName(sp, n)
    ensures n !in sp && n != MACH_PORT_NULL
  {
  }

  lemma RoomServed(o: Kernel, service: Name)
    requires Ready(o)
    ensures |Served(o, service)| < 0x8000_0000
  {
  }

  lemma RoomForMore(o: Kernel)
    requires Ready(o)
    ensures |o.parent| < 0x7fff_ff00
  {
  }

  lemma ServiceIsThere(o: Kernel, service: Name)
    ensures service in Served(o, service) && Served(o, service)[service] == Rights(o.next, true, 1)
  {
  }
}
