/**
 The kernel during an undisturbed run of the MOVE_SEND probe: it is a function of where the two
 programs are and of the names that were picked, and each kernel call leads from one to the next.
 */
module MoveSendKernel {
  import opened Baseline
  import opened MachKernel
  import opened Rendezvous
  import opened MoveSendVerdict
  import opened MoveSend

  /** The port names the two programs hold in their variables. */
  datatype Names = Names(bootstrap: Name, service: Name, delivered: Name, published: Name, cargo: Name)

  function DescriptorMessage(o: Kernel): Message {
    Message(DESCRIPTOR_ID, CarriedSend(o.next + 1))
  }

  function VerifyMessage(): Message {
    Message(VERIFY_ID, NoCargo)
  }

  // In all of the following, pn and cn say where the programs are.

  function ParentSpace(o: Kernel, m: Names, pn: nat, cn: nat): Space {
    if pn <= 2 || pn > 18 then o.parent
    else if pn <= 3 || pn == 18 then Held(o, m.bootstrap)
    else if pn == 4 then Held(o, m.bootstrap)[m.service := Rights(o.next, true, 0)]
    else if pn <= 9 || pn == 17 then Serving(o, m.bootstrap, m.service)
    else Serving(o, m.bootstrap, m.service)[m.delivered := if cn > 13 then Dead(1) else Rights(o.next + 1, false, 1)]
  }

  function ChildSpace(o: Kernel, m: Names, cn: nat): Space {
    if cn <= 1 || 16 <= cn <= 18 then o.child
    else if cn > 18 then map[]
    else if cn <= 3 || cn >= 14 then Found(o, m.published)
    else Found(o, m.published)[m.cargo := Rights(o.next + 1, true, if 5 <= cn <= 7 then 1 else 0)]
  }

  function Queues(o: Kernel, pn: nat, cn: nat): map<Port, seq<Message>> {
    var service := if 4 <= pn <= 17 then o.queues[o.next := if cn > 7 && pn <= 9 then [DescriptorMessage(o)] else []] else o.queues;
    if 4 <= cn <= 13 then service[o.next + 1 := if pn > 12 && cn <= 10 then [VerifyMessage()] else []] else service
  }

  function KernelAt(o: Kernel, m: Names, pn: nat, cn: nat): Kernel {
    Kernel(ParentSpace(o, m, pn, cn), ChildSpace(o, m, cn), Queues(o, pn, cn),
           if 6 <= pn <= 8 then o.next else o.parentBootstrap,
           if cn > 0 then o.next else o.childBootstrap,
           o.next + (if pn > 3 then 1 else 0) + (if cn > 3 then 1 else 0), o.listing)
  }

  /** The names were picked as the kernel may. */
  ghost predicate Picked(o: Kernel, m: Names, pn: nat, cn: nat) {
    && (pn > 2 ==> SendName(o.parent, o.parentBootstrap, m.bootstrap))
    && (pn > 3 ==> FreeName(Held(o, m.bootstrap), m.service))
    && (pn > 9 ==> FreeName(Serving(o, m.bootstrap, m.service), m.delivered))
    && (cn > 1 ==> SendName(o.child, o.next, m.published))
    && (cn > 3 ==> FreeName(Found(o, m.published), m.cargo))
  }

  /** Where the two programs can be relative to each other. */
  predicate InStep(pn: nat, cn: nat) {
    && pn <= 20 && cn <= 19
    && (cn == 0 <==> pn <= 6)
    && (pn > 9 ==> cn > 7)
    && (cn > 10 ==> pn > 12)
    && (pn > 13 ==> cn > 15)
    && (pn > 15 ==> cn > 18)
  }

  // ---- the parent's calls ------------------------------------------------------------------------------------

  lemma AtGetBootstrap(o: Kernel, m: Names, n: Name)
    requires Ready(o) && BootstrapName(KernelAt(o, m, 2, 0), Parent, n)
    ensures GetBootstrap(KernelAt(o, m, 2, 0), Parent, n) == KernelAt(o, m.(bootstrap := n), 3, 0)
    ensures Picked(o, m.(bootstrap := n), 3, 0) && n != MACH_PORT_NULL
  {
  }

  lemma AtAllocate(o: Kernel, m: Names, n: Name)
    requires Ready(o) && Picked(o, m, 3, 0) && FreeName(KernelAt(o, m, 3, 0).parent, n)
    ensures Allocate(KernelAt(o, m, 3, 0), Parent, n) == KernelAt(o, m.(service := n), 4, 0)
    ensures Picked(o, m.(service := n), 4, 0)
  {
    hide PlusSend, SendName;
  }

  lemma AtInsert(o: Kernel, m: Names)
    requires Ready(o) && Picked(o, m, 4, 0)
    ensures var k := KernelAt(o, m, 4, 0);
            MakeSend(k.parent, m.service) == Answer(KernelAt(o, m, 5, 0).parent, KERN_SUCCESS)
            && k.(parent := KernelAt(o, m, 5, 0).parent) == KernelAt(o, m, 5, 0)
  {
    hide PlusSend, SendName;
  }

  lemma AtPublish(o: Kernel, m: Names)
    requires Ready(o) && Picked(o, m, 5, 0)
    ensures SetBootstrap(KernelAt(o, m, 5, 0), Parent, m.service) == KernelAnswer(KernelAt(o, m, 6, 0), KERN_SUCCESS)
  {
    hide PlusSend, SendName;
  }

  lemma AtRestore(o: Kernel, m: Names, cn: nat)
    requires Ready(o) && Picked(o, m, 8, cn) && InStep(8, cn)
    ensures SetBootstrap(KernelAt(o, m, 8, cn), Parent, m.bootstrap) == KernelAnswer(KernelAt(o, m, 9, cn), KERN_SUCCESS)
    ensures KernelAt(o, m, 7, cn) == KernelAt(o, m, 8, cn)
  {
    HeldFacts(o, m.bootstrap);
    hide PlusSend, SendName, Found, Held;
  }

  lemma AtAwait(o: Kernel, m: Names, cn: nat)
    requires Ready(o) && Picked(o, m, 9, cn) && InStep(9, cn)
    ensures var k := KernelAt(o, m, 9, cn);
            && Awaits(k, Parent, m.service) == Some(o.next) && o.next in k.queues
            && k.queues[o.next] == if cn > 7 then [DescriptorMessage(o)] else []
  {
    hide PlusSend, SendName, Found, Held;
  }

  lemma DescriptorTaken(o: Kernel, cn: nat)
    requires 7 < cn <= 10
    ensures o.next + 1 in Queues(o, 9, cn) && o.next in Queues(o, 9, cn)
    ensures Queues(o, 9, cn)[o.next := Queues(o, 9, cn)[o.next][1..]] == Queues(o, 10, cn)
  {
    assert Queues(o, 9, cn)[o.next][1..] == [];
  }

  lemma AtReceive(o: Kernel, m: Names, cn: nat, n: Name, k: Kernel)
    requires Ready(o) && Picked(o, m, 9, cn) && InStep(9, cn) && cn > 7
    requires k == KernelAt(o, m, 9, cn) && o.next in k.queues && k.queues[o.next] == [DescriptorMessage(o)]
    requires DeliveryName(k, Parent, CarriedSend(o.next + 1), n)
    ensures Picked(o, m.(delivered := n), 10, cn) && n != MACH_PORT_NULL
    ensures Receive(k, Parent, o.next, n) == Received(KernelAt(o, m.(delivered := n), 10, cn), DescriptorMessage(o), n)
  {
    assert k.parent == Serving(o, m.bootstrap, m.service);
    NoCargoYet(o, m, n);
    assert n != MACH_PORT_NULL && Picked(o, m.(delivered := n), 10, cn);
    hide Ready, Picked, PlusSend, SendName, Found, Held, Serving;
    DescriptorTaken(o, cn);
    hide Queues;
  }

  lemma NoCargoYet(o: Kernel, m: Names, n: Name)
    requires Ready(o) && Picked(o, m, 9, 8) && SendName(Serving(o, m.bootstrap, m.service), o.next + 1, n)
    ensures FreeName(Serving(o, m.bootstrap, m.service), n)
    ensures PlusSend(Serving(o, m.bootstrap, m.service), o.next + 1, n) == Serving(o, m.bootstrap, m.service)[n := Rights(o.next + 1, false, 1)]
  {
    HeldFacts(o, m.bootstrap);
  }

  lemma AtInspect(o: Kernel, m: Names, pn: nat, cn: nat)
    requires Ready(o) && Picked(o, m, pn, cn) && InStep(pn, cn) && 10 <= pn <= 12
    ensures var k := KernelAt(o, m, pn, cn);
            && Type(k.parent, m.delivered) == Reading(KERN_SUCCESS, TYPE_SEND)
            && SendRefs(k.parent, m.delivered) == Reading(KERN_SUCCESS, 1)
            && k == KernelAt(o, m, 10, cn)
  {
    assert Queues(o, pn, cn) == Queues(o, 10, cn);
    hide PlusSend, SendName, Found, Held, Serving, Queues;
  }

  lemma AtVerify(o: Kernel, m: Names, cn: nat)
    requires Ready(o) && Picked(o, m, 12, cn) && InStep(12, cn)
    ensures Send(KernelAt(o, m, 12, cn), Parent, m.delivered, CopySend, VERIFY_ID, NoDescriptor)
              == KernelAnswer(KernelAt(o, m, 13, cn), MACH_MSG_SUCCESS)
  {
    hide Ready, WellFormed, Below, SendName;
    var k := KernelAt(o, m, 12, cn);
    assert CopyinHeader(k.parent, m.delivered, CopySend) == Some(Copyin(k.parent, o.next + 1)) by {
      hide Queues, ChildSpace, Serving;
    }
    assert k.queues[o.next + 1] == [] && k.queues[o.next + 1 := [VerifyMessage()]] == Queues(o, 13, cn) by {
      hide ParentSpace, ChildSpace;
    }
    hide Serving, ChildSpace, CopyinHeader, Queues, Send;
    SentFirst(k, Parent, m.delivered, CopySend, VERIFY_ID, NoDescriptor, o.next + 1, k.parent, k.parent, NoCargo);
  }

  lemma AtRead(o: Kernel, m: Names, pn: nat, cn: nat)
    requires 13 <= pn <= 16
    ensures KernelAt(o, m, pn, cn) == KernelAt(o, m, 13, cn)
  {
    hide PlusSend, Found, Held, Serving;
  }

  lemma AtDeallocate(o: Kernel, m: Names)
    requires Ready(o) && Picked(o, m, 16, 19)
    ensures var k := KernelAt(o, m, 16, 19);
            Deallocate(k.parent, m.delivered) == Answer(KernelAt(o, m, 17, 19).parent, KERN_SUCCESS)
            && k.(parent := KernelAt(o, m, 17, 19).parent) == KernelAt(o, m, 17, 19)
            && m.delivered in k.parent && k.parent[m.delivered] == Dead(1)
  {
    hide PlusSend, SendName, Found, Held, Serving;
    assert Serving(o, m.bootstrap, m.service)[m.delivered := Dead(1)] - {m.delivered} == Serving(o, m.bootstrap, m.service);
  }

  lemma ServiceDies(o: Kernel, m: Names)
    requires Ready(o) && Picked(o, m, 17, 19)
    ensures var sp, gone := ParentSpace(o, m, 17, 19), {o.next};
            && m.service in sp && sp[m.service] == Rights(o.next, true, 1)
            && Buried(sp - {m.service}, gone) == ParentSpace(o, m, 18, 19)
            && Buried(ChildSpace(o, m, 19), gone) == ChildSpace(o, m, 19)
            && Queues(o, 17, 19) - gone == Queues(o, 18, 19)
  {
    var held, gone := Held(o, m.bootstrap), {o.next};
    HeldFacts(o, m.bootstrap);
    BuriedElsewhere(held, gone, o.next);
    FreshPorts(o);
    hide Ready, WellFormed, Below, SendName, Held, Buried;
    Undo(o.queues, o.next, []);
    Undo(held, m.service, Rights(o.next, true, 1));
    BuriedNothing(gone);
  }

  lemma AtDestroy(o: Kernel, m: Names)
    requires Ready(o) && Picked(o, m, 17, 19)
    ensures Destroy(KernelAt(o, m, 17, 19), Parent, m.service) == KernelAnswer(KernelAt(o, m, 18, 19), KERN_SUCCESS)
  {
    hide Ready, Picked, ParentSpace, ChildSpace, Queues, Buried, Destroy;
    ServiceDies(o, m);
    Destroyed(KernelAt(o, m, 17, 19), Parent, m.service);
  }

  lemma AtDrop(o: Kernel, m: Names)
    requires Ready(o) && Picked(o, m, 18, 19)
    ensures var k := KernelAt(o, m, 18, 19);
            Deallocate(k.parent, m.bootstrap) == Answer(o.parent, KERN_SUCCESS)
            && k.(parent := o.parent) == KernelAt(o, m, 19, 19)
            && KernelAt(o, m, 19, 19) == KernelAt(o, m, 20, 19)
            && m.bootstrap != MACH_PORT_NULL
  {
    HeldFacts(o, m.bootstrap);
    hide PlusSend, SendName, Found, Held, Deallocate;
  }

  // ---- the child's calls -----------------------------------------------------------------------------------

  lemma AtFind(o: Kernel, m: Names, pn: nat, n: Name)
    requires Ready(o) && Picked(o, m, pn, 1) && InStep(pn, 1) && BootstrapName(KernelAt(o, m, pn, 1), Child, n)
    ensures GetBootstrap(KernelAt(o, m, pn, 1), Child, n) == KernelAt(o, m.(published := n), pn, 2)
    ensures Picked(o, m.(published := n), pn, 2) && n != MACH_PORT_NULL
    ensures KernelAt(o, m, pn, 2) == KernelAt(o, m, pn, 3)
  {
    hide Held, Serving;
    FoundFacts(o, n);
  }

  lemma AtAllocateCargo(o: Kernel, m: Names, pn: nat, n: Name)
    requires Ready(o) && Picked(o, m, pn, 3) && InStep(pn, 3) && FreeName(KernelAt(o, m, pn, 3).child, n)
    ensures Allocate(KernelAt(o, m, pn, 3), Child, n) == KernelAt(o, m.(cargo := n), pn, 4)
    ensures Picked(o, m.(cargo := n), pn, 4)
  {
    hide PlusSend, SendName, Held, Serving;
    assert Queues(o, pn, 3)[o.next + 1 := []] == Queues(o, pn, 4);
  }

  lemma AtInsertCargo(o: Kernel, m: Names, pn: nat)
    requires Ready(o) && Picked(o, m, pn, 4) && InStep(pn, 4)
    ensures var k := KernelAt(o, m, pn, 4);
            MakeSend(k.child, m.cargo) == Answer(KernelAt(o, m, pn, 5).child, KERN_SUCCESS)
            && k.(child := KernelAt(o, m, pn, 5).child) == KernelAt(o, m, pn, 5)
            && KernelAt(o, m, pn, 5) == KernelAt(o, m, pn, 6) == KernelAt(o, m, pn, 7)
  {
    hide Ready, WellFormed, Below, SendName;
    hide PlusSend, SendName, Found, Held, Serving;
  }

  lemma AtInspectCargo(o: Kernel, m: Names, cn: nat)
    requires Ready(o) && Picked(o, m, 7, cn) && 5 <= cn <= 13
    ensures var sp := ChildSpace(o, m, cn);
            if cn <= 7 then
              Type(sp, m.cargo) == Reading(KERN_SUCCESS, TYPE_SEND_RECEIVE) && SendRefs(sp, m.cargo) == Reading(KERN_SUCCESS, 1)
            else
              Type(sp, m.cargo) == Reading(KERN_SUCCESS, TYPE_RECEIVE) && SendRefs(sp, m.cargo) == Reading(KERN_SUCCESS, 0)
  {
    hide PlusSend, SendName, Found, Held, Serving;
  }

  lemma SendCopyin(o: Kernel, m: Names)
    requires Ready(o) && Picked(o, m, 7, 7)
    ensures var sp := ChildSpace(o, m, 7);
            && CopyinHeader(sp, m.published, CopySend) == Some(Copyin(sp, o.next))
            && CopyinDescriptor(sp, MoveSend(m.cargo)) == Some(Copyin(ChildSpace(o, m, 8), CarriedSend(o.next + 1)))
  {
    hide Ready, WellFormed, Below, SendName;
    FoundFacts(o, m.published);
    hide Found, Held, Serving;
    assert LessSend(ChildSpace(o, m, 7), m.cargo) == ChildSpace(o, m, 8);
  }

  lemma AtSend(o: Kernel, m: Names, pn: nat)
    requires Ready(o) && Picked(o, m, pn, 7) && InStep(pn, 7)
    ensures Send(KernelAt(o, m, pn, 7), Child, m.published, CopySend, DESCRIPTOR_ID, MoveSend(m.cargo))
              == KernelAnswer(KernelAt(o, m, pn, 8), MACH_MSG_SUCCESS)
  {
    hide Ready, WellFormed, Below, SendName;
    var k := KernelAt(o, m, pn, 7);
    SendCopyin(o, m);
    assert k.queues[o.next] == [] && k.queues[o.next := [DescriptorMessage(o)]] == Queues(o, pn, 8) by {
      hide ParentSpace, ChildSpace;
    }
    hide ParentSpace, ChildSpace, CopyinHeader, CopyinDescriptor, Queues, Send;
    SentFirst(k, Child, m.published, CopySend, DESCRIPTOR_ID, MoveSend(m.cargo), o.next, k.child, ChildSpace(o, m, 8), CarriedSend(o.next + 1));
  }

  lemma AtAwaitVerify(o: Kernel, m: Names, pn: nat)
    requires Ready(o) && Picked(o, m, pn, 10) && InStep(pn, 10)
    ensures var k := KernelAt(o, m, pn, 10);
            && Awaits(k, Child, m.cargo) == Some(o.next + 1) && o.next + 1 in k.queues
            && k.queues[o.next + 1] == (if pn > 12 then [VerifyMessage()] else [])
  {
    hide Ready, WellFormed, Below, SendName;
    hide PlusSend, SendName, Found, Held, Serving;
  }

  lemma VerifyTaken(o: Kernel, pn: nat)
    requires pn > 12
    ensures o.next + 1 in Queues(o, pn, 10) && Queues(o, pn, 10)[o.next + 1] == [VerifyMessage()]
    ensures Queues(o, pn, 10)[o.next + 1 := Queues(o, pn, 10)[o.next + 1][1..]] == Queues(o, pn, 11)
  {
    assert Queues(o, pn, 10)[o.next + 1][1..] == [];
  }

  lemma AtReceiveVerify(o: Kernel, m: Names, pn: nat, n: Name, k: Kernel)
    requires Ready(o) && Picked(o, m, pn, 10) && InStep(pn, 10) && pn > 12
    requires k == KernelAt(o, m, pn, 10) && o.next + 1 in k.queues && k.queues[o.next + 1] == [VerifyMessage()]
    ensures Receive(k, Child, o.next + 1, n).k == KernelAt(o, m, pn, 11)
    ensures Receive(k, Child, o.next + 1, n).message == VerifyMessage()
  {
    hide Ready, Picked, PlusSend, Found, Held, Serving, Queues;
    VerifyTaken(o, pn);
  }

  lemma CargoQueueDies(o: Kernel)
    requires o.next + 1 !in o.queues
    ensures Queues(o, 13, 13) - {o.next + 1} == Queues(o, 13, 14)
  {
    Undo(Queues(o, 13, 14), o.next + 1, []);
  }

  lemma CargoDies(o: Kernel, m: Names)
    requires Ready(o) && Picked(o, m, 13, 13)
    ensures var sp, gone := ChildSpace(o, m, 13), {o.next + 1};
            && m.cargo in sp && sp[m.cargo] == Rights(o.next + 1, true, 0)
            && Buried(sp - {m.cargo}, gone) == ChildSpace(o, m, 14)
            && Queues(o, 13, 13) - gone == Queues(o, 13, 14)
  {
    var found, gone := Found(o, m.published), {o.next + 1};
    FoundFacts(o, m.published);
    BuriedElsewhere(found, gone, o.next + 1);
    FreshPorts(o);
    hide Ready, WellFormed, Below, SendName, Found, Buried, Queues;
    CargoQueueDies(o);
    Undo(found, m.cargo, Rights(o.next + 1, true, 0));
  }

  lemma HeldStays(o: Kernel, m: Names)
    requires Ready(o) && SendName(o.parent, o.parentBootstrap, m.bootstrap)
    ensures Buried(Held(o, m.bootstrap), {o.next + 1}) == Held(o, m.bootstrap)
  {
    HeldFacts(o, m.bootstrap);
    BelowMore(Held(o, m.bootstrap), o.next);
    BuriedElsewhere(Held(o, m.bootstrap), {o.next + 1}, o.next + 1);
  }

  lemma DeliveredDies(o: Kernel, m: Names)
    requires Ready(o) && Picked(o, m, 13, 13)
    ensures Buried(ParentSpace(o, m, 13, 13), {o.next + 1}) == ParentSpace(o, m, 13, 14)
  {
    hide Ready, SendName, FreeName, Held, Buried;
    HeldStays(o, m);
    var gone := {o.next + 1};
    BuriedWithBoth(Held(o, m.bootstrap), m.service, Rights(o.next, true, 1), m.delivered, Rights(o.next + 1, false, 1), gone);
  }

  /** Destroying the cargo port leaves the parent with a dead name. */
  lemma AtDestroyCargo(o: Kernel, m: Names)
    requires Ready(o) && Picked(o, m, 13, 13)
    ensures Destroy(KernelAt(o, m, 13, 13), Child, m.cargo) == KernelAnswer(KernelAt(o, m, 13, 14), KERN_SUCCESS)
  {
    hide Ready, Picked, ParentSpace, ChildSpace, Queues, Buried, Destroy;
    CargoDies(o, m);
    DeliveredDies(o, m);
    Destroyed(KernelAt(o, m, 13, 13), Child, m.cargo);
  }

  lemma AtDropService(o: Kernel, m: Names, pn: nat)
    requires Ready(o) && Picked(o, m, pn, 15) && InStep(pn, 15)
    ensures var k := KernelAt(o, m, pn, 15);
            Deallocate(k.child, m.published) == Answer(o.child, KERN_SUCCESS)
            && k.(child := o.child) == KernelAt(o, m, pn, 16)
            && m.published != MACH_PORT_NULL
            && KernelAt(o, m, pn, 14) == k
  {
    FoundFacts(o, m.published);
    hide PlusSend, SendName, Found, Held, Serving, Deallocate;
  }

  lemma AtExit(o: Kernel, m: Names, pn: nat, cn: nat)
    requires Ready(o) && Picked(o, m, pn, cn) && InStep(pn, cn) && 16 <= cn <= 18
    ensures Exit(KernelAt(o, m, pn, cn), Child) == KernelAt(o, m, pn, 19)
    ensures KernelAt(o, m, pn, cn) == KernelAt(o, m, pn, 16)
  {
    var k := KernelAt(o, m, pn, cn);
    assert ReceiveRights(k.child) == {};
    BuriedByNobody(k.parent);
    BuriedNothing({});
    assert k.queues - {} == k.queues;
    hide Ready, WellFormed, Below, SendName, PlusSend, Found, Held, Serving, Buried, ReceiveRights;
  }
}
