/**
 The kernel during an undisturbed run of the send-once probe: a function of where the two programs
 are and of the names that were picked, and each kernel call leads from one to the next.
 */
module SendOnceKernel {
  import opened Baseline
  import opened MachKernel
  import opened Rendezvous
  import opened SendOnceVerdict

  datatype Names = Names(bootstrap: Name, service: Name, delivered: Name, published: Name, cargo: Name, once: Name)

  function DescriptorMessage(o: Kernel): Message {
    Message(DESCRIPTOR_ID, CarriedSendOnce(o.next + 1))
  }

  function VerifyMessage(): Message {
    Message(VERIFY_ID, NoCargo)
  }

  // In all of the following, pn and cn say where the programs are.

  /** The parent's namespace; the delivered right is there from its receipt to its first use. */
  function ParentSpace(o: Kernel, m: Names, pn: nat): Space {
    if pn <= 2 || pn > 19 then o.parent
    else if pn == 3 || pn == 19 then Held(o, m.bootstrap)
    else if pn == 4 then Held(o, m.bootstrap)[m.service := Rights(o.next, true, 0)]
    else if 9 <= pn <= 11 then Serving(o, m.bootstrap, m.service)[m.delivered := SendOnce(o.next + 1)]
    else Serving(o, m.bootstrap, m.service)
  }

  /** The child's namespace with its cargo port. */
  function Cargoed(o: Kernel, published: Name, cargo: Name): Space {
    Found(o, published)[cargo := Rights(o.next + 1, true, 0)]
  }

  /** The child's namespace; its send-once right is there from its extraction to the message. */
  function ChildSpace(o: Kernel, m: Names, cn: nat): Space {
    if cn <= 1 || 18 <= cn <= 19 then o.child
    else if cn > 19 then map[]
    else if cn <= 3 || cn >= 16 then Found(o, m.published)
    else if 6 <= cn <= 8 then Cargoed(o, m.published, m.cargo)[m.once := SendOnce(o.next + 1)]
    else Cargoed(o, m.published, m.cargo)
  }

  function Queues(o: Kernel, pn: nat, cn: nat): map<Port, seq<Message>> {
    var service := if 4 <= pn <= 18 then o.queues[o.next := if cn > 8 && pn <= 8 then [DescriptorMessage(o)] else []] else o.queues;
    if 4 <= cn <= 15 then service[o.next + 1 := if pn > 11 && cn <= 11 then [VerifyMessage()] else []] else service
  }

  function KernelAt(o: Kernel, m: Names, pn: nat, cn: nat): Kernel {
    Kernel(ParentSpace(o, m, pn), ChildSpace(o, m, cn), Queues(o, pn, cn),
           if 6 <= pn <= 7 then o.next else o.parentBootstrap,
           if cn > 0 then o.next else o.childBootstrap,
           o.next + (if pn > 3 then 1 else 0) + (if cn > 3 then 1 else 0), o.listing)
  }

  /** The names were picked as the kernel may. */
  ghost predicate Picked(o: Kernel, m: Names, pn: nat, cn: nat) {
    && (pn > 2 ==> SendName(o.parent, o.parentBootstrap, m.bootstrap))
    && (pn > 3 ==> FreeName(Held(o, m.bootstrap), m.service))
    && (pn > 8 ==> FreeName(Serving(o, m.bootstrap, m.service), m.delivered))
    && (cn > 1 ==> SendName(o.child, o.next, m.published))
    && (cn > 3 ==> FreeName(Found(o, m.published), m.cargo))
    && (cn > 5 ==> FreeName(Cargoed(o, m.published, m.cargo), m.once))
  }

  /** Where the two programs can be relative to each other. */
  predicate InStep(pn: nat, cn: nat) {
    && pn <= 21 && cn <= 20
    && (cn == 0 <==> pn <= 6)
    && (pn > 8 ==> cn > 8)
    && (cn > 11 ==> pn > 11)
    && (pn > 15 ==> cn > 18)
    && (pn > 16 ==> cn > 19)
  }

  // ---- the parent's calls ------------------------------------------------------------------------------------

  lemma AtStart(o: Kernel, m: Names)
    ensures KernelAt(o, m, 0, 0) == KernelAt(o, m, 1, 0) == KernelAt(o, m, 2, 0)
    ensures KernelAt(o, m, 0, 0).parent == o.parent && KernelAt(o, m, 0, 0).listing == o.listing
  {
    hide Held, Serving, Cargoed, Found;
  }

  lemma AtGetBootstrap(o: Kernel, m: Names, n: Name)
    requires Ready(o) && BootstrapName(KernelAt(o, m, 2, 0), Parent, n)
    ensures GetBootstrap(KernelAt(o, m, 2, 0), Parent, n) == KernelAt(o, m.(bootstrap := n), 3, 0)
    ensures Picked(o, m.(bootstrap := n), 3, 0) && n != MACH_PORT_NULL
  {
  }

  lemma AtAllocate(o: Kernel, m: Names, n: Name)
    requires Ready(o) && Picked(o, m, 3, 0) && FreeName(KernelAt(o, m, 3, 0).parent, n)
    ensures Allocate(KernelAt(o, m, 3, 0), Parent, n) == KernelAt(o, m.(service := n), 4, 0)
    ensures Picked(o, m.(service := n), 4, 0)
  {
    hide PlusSend, SendName;
  }

  lemma AtInsert(o: Kernel, m: Names)
    requires Ready(o) && Picked(o, m, 4, 0)
    ensures var k := KernelAt(o, m, 4, 0);
            MakeSend(k.parent, m.service) == Answer(KernelAt(o, m, 5, 0).parent, KERN_SUCCESS)
            && k.(parent := KernelAt(o, m, 5, 0).parent) == KernelAt(o, m, 5, 0)
  {
    hide PlusSend, SendName;
  }

  lemma AtPublish(o: Kernel, m: Names)
    requires Ready(o) && Picked(o, m, 5, 0)
    ensures SetBootstrap(KernelAt(o, m, 5, 0), Parent, m.service) == KernelAnswer(KernelAt(o, m, 6, 0), KERN_SUCCESS)
  {
    hide PlusSend, SendName;
  }

  lemma AtFork(o: Kernel, m: Names)
    ensures KernelAt(o, m, 6, 0).(childBootstrap := KernelAt(o, m, 6, 0).parentBootstrap) == KernelAt(o, m, 7, 1)
    ensures Picked(o, m, 6, 0) ==> Picked(o, m, 7, 1)
  {
    hide Held, Serving, Found, Cargoed, SendName, FreeName;
  }

  lemma AtRestore(o: Kernel, m: Names, cn: nat)
    requires Ready(o) && Picked(o, m, 7, cn) && InStep(7, cn)
    ensures SetBootstrap(KernelAt(o, m, 7, cn), Parent, m.bootstrap) == KernelAnswer(KernelAt(o, m, 8, cn), KERN_SUCCESS)
  {
    HeldFacts(o, m.bootstrap);
    hide PlusSend, SendName, Found, Held;
  }

  lemma AtAwait(o: Kernel, m: Names, cn: nat)
    requires Ready(o) && Picked(o, m, 8, cn) && InStep(8, cn)
    ensures var k := KernelAt(o, m, 8, cn);
            && Awaits(k, Parent, m.service) == Some(o.next) && o.next in k.queues
            && k.queues[o.next] == if cn > 8 then [DescriptorMessage(o)] else []
  {
    hide PlusSend, SendName, Found, Held;
  }

  lemma DescriptorTaken(o: Kernel, cn: nat)
    requires 8 < cn <= 11
    ensures o.next + 1 in Queues(o, 8, cn) && o.next in Queues(o, 8, cn)
    ensures Queues(o, 8, cn)[o.next := Queues(o, 8, cn)[o.next][1..]] == Queues(o, 9, cn)
  {
    assert Queues(o, 8, cn)[o.next][1..] == [];
  }

  lemma AtReceive(o: Kernel, m: Names, cn: nat, n: Name, k: Kernel)
    requires Ready(o) && Picked(o, m, 8, cn) && InStep(8, cn) && cn > 8
    requires k == KernelAt(o, m, 8, cn) && o.next in k.queues && k.queues[o.next] == [DescriptorMessage(o)]
    requires DeliveryName(k, Parent, CarriedSendOnce(o.next + 1), n)
    ensures Picked(o, m.(delivered := n), 9, cn) && n != MACH_PORT_NULL
    ensures Receive(k, Parent, o.next, n) == Received(KernelAt(o, m.(delivered := n), 9, cn), DescriptorMessage(o), n)
  {
    hide Ready, PlusSend, SendName, Found, Held, Serving, Cargoed;
    DescriptorTaken(o, cn);
    hide Queues;
  }

  lemma AtInspect(o: Kernel, m: Names, pn: nat, cn: nat)
    requires Ready(o) && Picked(o, m, pn, cn) && InStep(pn, cn) && 9 <= pn <= 11
    ensures var k := KernelAt(o, m, pn, cn);
            && Type(k.parent, m.delivered) == Reading(KERN_SUCCESS, TYPE_SEND_ONCE)
            && SendOnceRefs(k.parent, m.delivered) == Reading(KERN_SUCCESS, 1)
            && k == KernelAt(o, m, 9, cn)
  {
    assert Queues(o, pn, cn) == Queues(o, 9, cn);
    hide PlusSend, SendName, Found, Held, Serving, Queues;
  }

  /** The first use consumes the right and puts one message on the cargo port. */
  lemma AtFirst(o: Kernel, m: Names, cn: nat)
    requires Ready(o) && Picked(o, m, 11, cn) && InStep(11, cn)
    ensures Send(KernelAt(o, m, 11, cn), Parent, m.delivered, MoveSendOnce, VERIFY_ID, NoDescriptor)
              == KernelAnswer(KernelAt(o, m, 12, cn), MACH_MSG_SUCCESS)
  {
    hide Ready, PlusSend, SendName, Found, Held, Serving, Cargoed;
    var k := KernelAt(o, m, 11, cn);
    var used := Serving(o, m.bootstrap, m.service);
    Undo(used, m.delivered, SendOnce(o.next + 1));
    assert CopyinHeader(k.parent, m.delivered, MoveSendOnce) == Some(Copyin(used, o.next + 1)) by {
      hide Queues, ChildSpace;
    }
    assert o.next + 1 in k.queues && k.queues[o.next + 1] == [] && k.queues[o.next + 1 := [VerifyMessage()]] == Queues(o, 12, cn) by {
      hide ParentSpace, ChildSpace;
    }
    hide ChildSpace, CopyinHeader, Queues, Send;
    SentFirst(k, Parent, m.delivered, MoveSendOnce, VERIFY_ID, NoDescriptor, o.next + 1, used, used, NoCargo);
  }

  /** From then on the name is gone, and a second use is refused and changes nothing. */
  lemma AtUsed(o: Kernel, m: Names, pn: nat, cn: nat)
    requires Ready(o) && Picked(o, m, pn, cn) && 12 <= pn <= 18
    ensures var k := KernelAt(o, m, pn, cn);
            && Type(k.parent, m.delivered) == Reading(KERN_INVALID_NAME, 0)
            && SendOnceRefs(k.parent, m.delivered) == Reading(KERN_INVALID_NAME, 0)
            && Send(k, Parent, m.delivered, MoveSendOnce, SECOND_ID, NoDescriptor) == KernelAnswer(k, MACH_SEND_INVALID_DEST)
            && Deallocate(k.parent, m.delivered) == Answer(k.parent, KERN_INVALID_NAME)
            && k.(parent := k.parent) == k
            && m.delivered != MACH_PORT_NULL
    ensures KernelAt(o, m, pn, cn) == KernelAt(o, m, 12, cn)
  {
    hide Ready, PlusSend, SendName, Found, Held, Serving, Cargoed;
    assert Queues(o, pn, cn) == Queues(o, 12, cn);
    hide Queues;
  }

  lemma ServiceDies(o: Kernel, m: Names)
    requires Ready(o) && Picked(o, m, 18, 20)
    ensures var sp, gone := ParentSpace(o, m, 18), {o.next};
            && m.service in sp && sp[m.service] == Rights(o.next, true, 1)
            && Buried(sp - {m.service}, gone) == ParentSpace(o, m, 19)
            && Buried(ChildSpace(o, m, 20), gone) == ChildSpace(o, m, 20)
            && Queues(o, 18, 20) - gone == Queues(o, 19, 20)
  {
    var held, gone := Held(o, m.bootstrap), {o.next};
    HeldFacts(o, m.bootstrap);
    BuriedElsewhere(held, gone, o.next);
    FreshPorts(o);
    hide Ready, WellFormed, Below, SendName, Held, Buried;
    Undo(o.queues, o.next, []);
    Undo(held, m.service, Rights(o.next, true, 1));
    BuriedNothing(gone);
  }

  lemma AtDestroy(o: Kernel, m: Names)
    requires Ready(o) && Picked(o, m, 18, 20)
    ensures Destroy(KernelAt(o, m, 18, 20), Parent, m.service) == KernelAnswer(KernelAt(o, m, 19, 20), KERN_SUCCESS)
  {
    hide Ready, Picked, ParentSpace, ChildSpace, Queues, Buried, Destroy;
    ServiceDies(o, m);
    Destroyed(KernelAt(o, m, 18, 20), Parent, m.service);
  }

  lemma AtDrop(o: Kernel, m: Names)
    requires Ready(o) && Picked(o, m, 19, 20)
    ensures var k := KernelAt(o, m, 19, 20);
            Deallocate(k.parent, m.bootstrap) == Answer(o.parent, KERN_SUCCESS)
            && k.(parent := o.parent) == KernelAt(o, m, 20, 20)
            && m.bootstrap != MACH_PORT_NULL
  {
    HeldFacts(o, m.bootstrap);
    hide PlusSend, SendName, Found, Held, Deallocate;
  }

  lemma AtBaseline(o: Kernel, m: Names)
    ensures KernelAt(o, m, 20, 20).parent == o.parent && KernelAt(o, m, 20, 20).listing == o.listing
    ensures KernelAt(o, m, 20, 20) == KernelAt(o, m, 21, 20)
  {
    hide Held, Serving, Found;
  }

  // ---- the child's calls -----------------------------------------------------------------------------------

  lemma AtFind(o: Kernel, m: Names, pn: nat, n: Name)
    requires Ready(o) && Picked(o, m, pn, 1) && InStep(pn, 1) && BootstrapName(KernelAt(o, m, pn, 1), Child, n)
    ensures GetBootstrap(KernelAt(o, m, pn, 1), Child, n) == KernelAt(o, m.(published := n), pn, 2)
    ensures Picked(o, m.(published := n), pn, 2) && n != MACH_PORT_NULL
  {
    hide Held, Serving;
    FoundFacts(o, n);
  }

  lemma AtAllocateCargo(o: Kernel, m: Names, pn: nat, n: Name)
    requires Ready(o) && Picked(o, m, pn, 3) && InStep(pn, 3) && FreeName(KernelAt(o, m, pn, 3).child, n)
    ensures Allocate(KernelAt(o, m, pn, 3), Child, n) == KernelAt(o, m.(cargo := n), pn, 4)
    ensures Picked(o, m.(cargo := n), pn, 4)
  {
    hide PlusSend, SendName, Held, Serving;
    assert Queues(o, pn, 3)[o.next + 1 := []] == Queues(o, pn, 4);
  }

  /** The cargo port is a bare receive right before and after the exchange. */
  lemma AtCargo(o: Kernel, m: Names, cn: nat)
    requires Ready(o) && Picked(o, m, 7, cn) && 4 <= cn <= 15
    ensures Type(ChildSpace(o, m, cn), m.cargo) == Reading(KERN_SUCCESS, TYPE_RECEIVE)
  {
    hide PlusSend, SendName, Found, Held, Serving;
  }

  lemma AtExtract(o: Kernel, m: Names, pn: nat, n: Name)
    requires Ready(o) && Picked(o, m, pn, 5) && InStep(pn, 5) && FreeName(KernelAt(o, m, pn, 5).child, n)
    ensures var k := KernelAt(o, m, pn, 5);
            ExtractOnce(k.child, m.cargo, n) == Answer(KernelAt(o, m.(once := n), pn, 6).child, KERN_SUCCESS)
            && k.(child := KernelAt(o, m.(once := n), pn, 6).child) == KernelAt(o, m.(once := n), pn, 6)
    ensures Picked(o, m.(once := n), pn, 6)
  {
    hide PlusSend, SendName, Found, Held, Serving;
  }

  lemma AtInspectOnce(o: Kernel, m: Names, cn: nat)
    requires Ready(o) && Picked(o, m, 7, cn) && 6 <= cn <= 15
    ensures var sp := ChildSpace(o, m, cn);
            if cn <= 8 then
              Type(sp, m.once) == Reading(KERN_SUCCESS, TYPE_SEND_ONCE) && SendOnceRefs(sp, m.once) == Reading(KERN_SUCCESS, 1)
            else
              Type(sp, m.once) == SendOnceRefs(sp, m.once) == Reading(KERN_INVALID_NAME, 0)
    ensures cn > 8 ==> Deallocate(ChildSpace(o, m, cn), m.once) == Answer(ChildSpace(o, m, cn), KERN_INVALID_NAME)
  {
    hide PlusSend, SendName, Found, Held, Serving, Cargoed;
  }

  /** Nothing of the kernel changes while the child only looks. */
  lemma SameView(o: Kernel, m: Names, pn: nat, cn: nat)
    requires cn in {2, 4, 6, 7, 9, 10, 12, 13, 14, 16, 18}
    ensures ChildSpace(o, m, cn + 1) == ChildSpace(o, m, cn)
    ensures KernelAt(o, m, pn, cn + 1) == KernelAt(o, m, pn, cn)
  {
    hide Held, Serving, Found, Cargoed;
  }

  /** What the child sees of the kernel. */
  lemma ChildPart(o: Kernel, m: Names, pn: nat, cn: nat)
    ensures var k := KernelAt(o, m, pn, cn);
            k.child == ChildSpace(o, m, cn) && k.listing == o.listing && k.(child := k.child) == k
    ensures 2 <= cn <= 3 || 16 <= cn <= 17 ==> ChildSpace(o, m, cn) == Found(o, m.published)
  {
    hide ParentSpace, Queues, Held, Serving, Found, Cargoed;
  }

  lemma SendCopyin(o: Kernel, m: Names)
    requires Ready(o) && Picked(o, m, 7, 8)
    ensures var sp := ChildSpace(o, m, 8);
            && CopyinHeader(sp, m.published, CopySend) == Some(Copyin(sp, o.next))
            && CopyinDescriptor(sp, MoveOnce(m.once)) == Some(Copyin(ChildSpace(o, m, 9), CarriedSendOnce(o.next + 1)))
  {
    hide Ready, WellFormed, Below, SendName;
    FoundFacts(o, m.published);
    Undo(Cargoed(o, m.published, m.cargo), m.once, SendOnce(o.next + 1));
    hide Found, Held, Serving;
  }

  lemma AtSend(o: Kernel, m: Names, pn: nat)
    requires Ready(o) && Picked(o, m, pn, 8) && InStep(pn, 8)
    ensures Send(KernelAt(o, m, pn, 8), Child, m.published, CopySend, DESCRIPTOR_ID, MoveOnce(m.once))
              == KernelAnswer(KernelAt(o, m, pn, 9), MACH_MSG_SUCCESS)
  {
    hide Ready, WellFormed, Below, SendName;
    var k := KernelAt(o, m, pn, 8);
    SendCopyin(o, m);
    assert o.next in k.queues && k.queues[o.next] == [] && k.queues[o.next := [DescriptorMessage(o)]] == Queues(o, pn, 9) by {
      hide ParentSpace, ChildSpace;
    }
    hide ParentSpace, ChildSpace, CopyinHeader, CopyinDescriptor, Queues, Send;
    SentFirst(k, Child, m.published, CopySend, DESCRIPTOR_ID, MoveOnce(m.once), o.next, k.child, ChildSpace(o, m, 9), CarriedSendOnce(o.next + 1));
  }

  lemma AtAwaitVerify(o: Kernel, m: Names, pn: nat, cn: nat)
    requires Ready(o) && Picked(o, m, pn, cn) && InStep(pn, cn) && 11 <= cn <= 12
    ensures var k := KernelAt(o, m, pn, cn);
            && Awaits(k, Child, m.cargo) == Some(o.next + 1) && o.next + 1 in k.queues
            && k.queues[o.next + 1] == (if pn > 11 && cn == 11 then [VerifyMessage()] else [])
  {
    hide Ready, WellFormed, Below, SendName, PlusSend, Found, Held, Serving;
  }

  lemma VerifyTaken(o: Kernel, pn: nat)
    requires pn > 11
    ensures o.next + 1 in Queues(o, pn, 11) && Queues(o, pn, 11)[o.next + 1] == [VerifyMessage()]
    ensures Queues(o, pn, 11)[o.next + 1 := Queues(o, pn, 11)[o.next + 1][1..]] == Queues(o, pn, 12)
  {
    assert Queues(o, pn, 11)[o.next + 1][1..] == [];
  }

  lemma AtReceiveVerify(o: Kernel, m: Names, pn: nat, n: Name, k: Kernel)
    requires o.next + 1 in k.queues && k.queues[o.next + 1] == [VerifyMessage()]
    requires pn > 11 && k == KernelAt(o, m, pn, 11)
    ensures Receive(k, Child, o.next + 1, n) == Received(KernelAt(o, m, pn, 12), VerifyMessage(), MACH_PORT_NULL)
  {
    hide PlusSend, Found, Held, Serving, Cargoed, Queues, ParentSpace;
    VerifyTaken(o, pn);
  }

  lemma CargoQueueDies(o: Kernel, pn: nat)
    requires o.next + 1 !in o.queues && pn > 11
    ensures Queues(o, pn, 15) - {o.next + 1} == Queues(o, pn, 16)
  {
    Undo(Queues(o, pn, 16), o.next + 1, []);
  }

  lemma CargoDies(o: Kernel, m: Names, pn: nat)
    requires Ready(o) && Picked(o, m, pn, 15) && pn > 11
    ensures var sp, gone := ChildSpace(o, m, 15), {o.next + 1};
            && m.cargo in sp && sp[m.cargo] == Rights(o.next + 1, true, 0)
            && Buried(sp - {m.cargo}, gone) == ChildSpace(o, m, 16)
            && Queues(o, pn, 15) - gone == Queues(o, pn, 16)
  {
    var found, gone := Found(o, m.published), {o.next + 1};
    FoundFacts(o, m.published);
    BuriedElsewhere(found, gone, o.next + 1);
    FreshPorts(o);
    hide Ready, WellFormed, Below, SendName, Found, Buried, Queues;
    CargoQueueDies(o, pn);
    Undo(found, m.cargo, Rights(o.next + 1, true, 0));
  }

  lemma HeldStays(o: Kernel, m: Names)
    requires Ready(o) && SendName(o.parent, o.parentBootstrap, m.bootstrap)
    ensures Buried(Held(o, m.bootstrap), {o.next + 1}) == Held(o, m.bootstrap)
  {
    HeldFacts(o, m.bootstrap);
    BelowMore(Held(o, m.bootstrap), o.next);
    BuriedElsewhere(Held(o, m.bootstrap), {o.next + 1}, o.next + 1);
  }

  lemma ParentStays(o: Kernel, m: Names, pn: nat)
    requires Ready(o) && Picked(o, m, pn, 15) && 12 <= pn <= 15
    ensures Buried(ParentSpace(o, m, pn), {o.next + 1}) == ParentSpace(o, m, pn)
  {
    hide Ready, SendName, FreeName, Held, Buried;
    HeldStays(o, m);
    BuriedWith(Held(o, m.bootstrap), m.service, Rights(o.next, true, 1), {o.next + 1});
  }

  /** The right was used up, so the death of the cargo port leaves no trace in the parent. */
  lemma AtDestroyCargo(o: Kernel, m: Names, pn: nat)
    requires Ready(o) && Picked(o, m, pn, 15) && InStep(pn, 15)
    ensures Destroy(KernelAt(o, m, pn, 15), Child, m.cargo) == KernelAnswer(KernelAt(o, m, pn, 16), KERN_SUCCESS)
  {
    hide Ready, Picked, ParentSpace, ChildSpace, Queues, Buried, Destroy;
    CargoDies(o, m, pn);
    ParentStays(o, m, pn);
    Destroyed(KernelAt(o, m, pn, 15), Child, m.cargo);
  }

  lemma AtDropService(o: Kernel, m: Names, pn: nat)
    requires Ready(o) && Picked(o, m, pn, 17) && InStep(pn, 17)
    ensures var k := KernelAt(o, m, pn, 17);
            Deallocate(k.child, m.published) == Answer(o.child, KERN_SUCCESS)
            && k.(child := o.child) == KernelAt(o, m, pn, 18)
            && m.published != MACH_PORT_NULL
  {
    FoundFacts(o, m.published);
    hide PlusSend, SendName, Found, Held, Serving, Deallocate;
  }

  lemma AtExit(o: Kernel, m: Names, pn: nat)
    requires Ready(o) && Picked(o, m, pn, 19) && InStep(pn, 19)
    ensures Exit(KernelAt(o, m, pn, 19), Child) == KernelAt(o, m, pn, 20)
  {
    var k := KernelAt(o, m, pn, 19);
    assert ReceiveRights(k.child) == {};
    BuriedByNobody(k.parent);
    BuriedNothing({});
    assert k.queues - {} == k.queues;
    hide Ready, WellFormed, Below, SendName, PlusSend, Found, Held, Serving, Buried, ReceiveRights;
  }

  /** Picks stay good while no name is picked. */
  lemma StillPicked(o: Kernel, m: Names, pn: nat, cn: nat)
    requires Picked(o, m, pn, cn)
    ensures cn !in {1, 3, 5} ==> Picked(o, m, pn, cn + 1)
    ensures pn !in {2, 3, 8} ==> Picked(o, m, pn + 1, cn)
    ensures pn >= 7 ==> Picked(o, m, 7, cn)
  {
    hide SendName, FreeName, Held, Serving, Found, Cargoed;
  }
}
