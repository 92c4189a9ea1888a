/**
 What the two namespaces and the queues of the send-once probe hold of the cargo port in every run,
 timeouts, failed calls and sudden death included, and that each kernel call keeps it.
 */
module SendOnceSides {
  import opened Baseline
  import opened MachKernel
  import opened Rendezvous
  import opened SendOnceVerdict
  import opened SendOnceKernel

  // In the following o is the kernel at the start of a run, so that the first port allocated, o.next, is
  // the service port and o.next + 1 the cargo port; pn and cn say where the programs are.

  /** The parent's names, and whether it allocated, received, and used the right. */
  datatype ParentView = ParentView(service: Name, delivered: Name, alloc: bool, received: bool, used: bool)

  /** No send or receive right for the cargo port, and a send-once right only as delivered and not yet used. */
  predicate ParentEntry(o: Kernel, n: Name, e: Entry, v: ParentView) {
    && (e.Rights? ==> e.port != o.next + 1)
    && (e == SendOnce(o.next + 1) ==> n == v.delivered && v.received && !v.used)
  }

  ghost predicate ParentSide(o: Kernel, sp: Space, v: ParentView, pn: nat) {
    && MACH_PORT_NULL !in sp && MACH_PORT_DEAD !in sp
    && (forall n | n in sp :: ParentEntry(o, n, sp[n], v))
    && (4 <= pn <= 18 && v.alloc ==> v.service in sp && sp[v.service].Rights? && sp[v.service].port == o.next && sp[v.service].receive)
    && (v.received ==> v.delivered != v.service)
    && (v.received && v.delivered in sp && sp[v.delivered].SendOnce? ==> sp[v.delivered].port == o.next + 1)
  }

  /** The child's names, and whether it allocated, extracted, and sent the right. */
  datatype ChildView = ChildView(service: Name, cargo: Name, once: Name, alloc: bool, extracted: bool, sent: bool)

  /** The only receive right is for the cargo port, and a send-once right for it only extracted and not yet sent. */
  predicate ChildEntry(o: Kernel, n: Name, e: Entry, v: ChildView, cn: nat) {
    && (e.Rights? && (e.receive || e.port == o.next + 1) ==> e == Rights(o.next + 1, true, 0) && n == v.cargo && v.alloc && cn > 3)
    && (e == SendOnce(o.next + 1) ==> n == v.once && v.extracted && !v.sent)
  }

  predicate ServiceEntry(o: Kernel, sp: Space, n: Name) {
    n == MACH_PORT_DEAD || (n in sp && (sp[n].Dead? || (sp[n].Rights? && sp[n].port == o.next)))
  }

  ghost predicate ChildSide(o: Kernel, sp: Space, v: ChildView, cn: nat) {
    && MACH_PORT_NULL !in sp && MACH_PORT_DEAD !in sp
    && (forall n | n in sp :: ChildEntry(o, n, sp[n], v, cn))
    && (4 <= cn <= 15 && v.alloc ==> v.cargo in sp && sp[v.cargo] == Rights(o.next + 1, true, 0))
    && (2 <= cn <= 17 ==> ServiceEntry(o, sp, v.service))
    && (6 <= cn <= 8 && v.extracted ==> v.once in sp && sp[v.once] == SendOnce(o.next + 1))
    && (v.extracted ==> v.once != v.cargo && v.once != v.service)
  }

  predicate CarryNothing(messages: seq<Message>) {
    forall m | m in messages :: m.cargo == NoCargo
  }

  /** The service queue holds at most the descriptor message; only that carries a right for the cargo port. */
  ghost predicate QueueSide(o: Kernel, q: map<Port, seq<Message>>, sent: bool, received: bool, cn: nat) {
    && (o.next in q ==> q[o.next] == [] || (q[o.next] == [DescriptorMessage(o)] && sent && !received))
    && (forall x, i | x in q && 0 <= i < |q[x]| :: q[x][i].cargo == CarriedSendOnce(o.next + 1) ==> x == o.next)
    && (o.next + 1 in q ==> cn > 3 && CarryNothing(q[o.next + 1]))
  }

  // ---- the parent's namespace ----------------------------------------------------------------------------

  lemma ParentStarts(o: Kernel, v: ParentView)
    requires Ready(o) && !v.received && !v.alloc
    ensures ParentSide(o, o.parent, v, 0)
  {
  }

  lemma ParentOn(o: Kernel, sp: Space, v: ParentView, pn: nat)
    requires ParentSide(o, sp, v, pn) && (pn == 3 ==> !v.alloc)
    ensures ParentSide(o, sp, v, pn + 1)
  {
  }

  lemma ParentBoots(o: Kernel, sp: Space, v: ParentView, port: Port, n: Name)
    requires ParentSide(o, sp, v, 2) && port != o.next + 1 && SendName(sp, port, n) && !v.received
    ensures ParentSide(o, PlusSend(sp, port, n), v, 3)
  {
  }

  lemma ParentAllocates(o: Kernel, sp: Space, v: ParentView, n: Name)
    requires ParentSide(o, sp, v, 3) && FreeName(sp, n) && !v.received
    ensures ParentSide(o, sp[n := Rights(o.next, true, 0)], v.(service := n, alloc := true), 4)
  {
  }

  lemma ParentMakesSend(o: Kernel, sp: Space, v: ParentView)
    requires ParentSide(o, sp, v, 4) && !v.received
    ensures ParentSide(o, MakeSend(sp, v.service).space, v, 5)
  {
  }

  lemma ParentReceives(o: Kernel, sp: Space, v: ParentView, n: Name, alive: bool)
    requires ParentSide(o, sp, v, 8) && !v.received && !v.used && v.alloc
    requires if alive then FreeName(sp, n) else n == MACH_PORT_DEAD
    ensures ParentSide(o, if alive then sp[n := SendOnce(o.next + 1)] else sp, v.(delivered := n, received := true), 9)
  {
  }

  lemma ParentUses(o: Kernel, sp: Space, v: ParentView, pn: nat)
    requires ParentSide(o, sp, v, pn) && v.received && pn >= 4
    ensures ParentSide(o, sp - {v.delivered}, v.(used := true), pn + 1)
  {
  }

  lemma ParentDeallocates(o: Kernel, sp: Space, v: ParentView, pn: nat, n: Name)
    requires ParentSide(o, sp, v, pn) && pn >= 4 && (pn <= 18 ==> n != v.service)
    ensures ParentSide(o, Deallocate(sp, n).space, v, pn + 1)
  {
    var sq := Deallocate(sp, n).space;
    forall m | m in sq ensures ParentEntry(o, m, sq[m], v) {
      assert ParentEntry(o, m, sp[m], v);
    }
  }

  lemma ParentBuried(o: Kernel, sp: Space, v: ParentView, pn: nat, ports: set<Port>)
    requires ParentSide(o, sp, v, pn) && (pn <= 18 ==> o.next !in ports)
    ensures ParentSide(o, Buried(sp, ports), v, pn)
  {
    var sq := Buried(sp, ports);
    forall m | m in sq ensures ParentEntry(o, m, sq[m], v) {
      assert ParentEntry(o, m, sp[m], v);
    }
  }

  lemma ParentLess(o: Kernel, sp: Space, v: ParentView, pn: nat, n: Name)
    requires ParentSide(o, sp, v, pn) && pn >= 18
    ensures ParentSide(o, sp - {n}, v, pn + 1)
  {
  }

  // ---- the child's namespace -------------------------------------------------------------------------------

  lemma ChildStarts(o: Kernel, v: ChildView)
    requires Ready(o) && !v.extracted && !v.alloc
    ensures ChildSide(o, o.child, v, 0) && ChildSide(o, o.child, v, 1)
  {
    NoReceiveRights(o.child);
  }

  lemma NoReceiveRights(sp: Space)
    requires ReceiveRights(sp) == {}
    ensures forall n | n in sp :: sp[n].Rights? ==> !sp[n].receive
  {
    if n :| n in sp && sp[n].Rights? && sp[n].receive {
      IsReceiveRight(sp, n);
    }
  }

  lemma IsReceiveRight(sp: Space, n: Name)
    requires n in sp && sp[n].Rights? && sp[n].receive
    ensures sp[n].port in ReceiveRights(sp)
  {
  }

  lemma ChildOn(o: Kernel, sp: Space, v: ChildView, cn: nat)
    requires ChildSide(o, sp, v, cn) && cn != 1 && (cn == 3 ==> !v.alloc) && (cn == 5 ==> !v.extracted)
    ensures ChildSide(o, sp, v, cn + 1)
  {
    forall n | n in sp ensures ChildEntry(o, n, sp[n], v, cn + 1) {
      assert ChildEntry(o, n, sp[n], v, cn);
    }
  }

  lemma ChildBoots(o: Kernel, sp: Space, v: ChildView, n: Name, alive: bool)
    requires ChildSide(o, sp, v, 1) && !v.extracted && !v.alloc
    requires if alive then SendName(sp, o.next, n) else n == MACH_PORT_DEAD
    ensures ChildSide(o, if alive then PlusSend(sp, o.next, n) else sp, v.(service := n), 2)
  {
    var w := v.(service := n);
    var sq := if alive then PlusSend(sp, o.next, n) else sp;
    forall m | m in sq ensures ChildEntry(o, m, sq[m], w, 2) {
      if m in sp {
        assert ChildEntry(o, m, sp[m], v, 1);
      }
    }
  }

  lemma ChildAllocates(o: Kernel, sp: Space, v: ChildView, n: Name)
    requires ChildSide(o, sp, v, 3) && FreeName(sp, n) && !v.extracted && !v.alloc
    ensures ChildSide(o, sp[n := Rights(o.next + 1, true, 0)], v.(cargo := n, alloc := true), 4)
  {
    var w, sq := v.(cargo := n, alloc := true), sp[n := Rights(o.next + 1, true, 0)];
    forall m | m in sq ensures ChildEntry(o, m, sq[m], w, 4) {
      if m != n {
        assert ChildEntry(o, m, sp[m], v, 3);
      }
    }
  }

  lemma ChildExtracts(o: Kernel, sp: Space, v: ChildView, n: Name)
    requires ChildSide(o, sp, v, 5) && FreeName(sp, n) && v.alloc && !v.extracted && !v.sent
    ensures ExtractOnce(sp, v.cargo, n) == Answer(sp[n := SendOnce(o.next + 1)], KERN_SUCCESS)
    ensures ChildSide(o, sp[n := SendOnce(o.next + 1)], v.(once := n, extracted := true), 6)
  {
    var w, sq := v.(once := n, extracted := true), sp[n := SendOnce(o.next + 1)];
    forall m | m in sq ensures ChildEntry(o, m, sq[m], w, 6) {
      if m != n {
        assert ChildEntry(o, m, sp[m], v, 5);
      }
    }
  }

  lemma ChildSends(o: Kernel, sp: Space, v: ChildView)
    requires ChildSide(o, sp, v, 8) && v.extracted
    ensures ChildSide(o, sp - {v.once}, v.(sent := true), 9)
  {
    var sq := sp - {v.once};
    forall m | m in sq ensures ChildEntry(o, m, sq[m], v.(sent := true), 9) {
      assert ChildEntry(o, m, sp[m], v, 8);
    }
  }

  lemma ChildDeallocates(o: Kernel, sp: Space, v: ChildView, cn: nat, n: Name)
    requires ChildSide(o, sp, v, cn) && cn >= 9 && (cn <= 15 ==> v.alloc ==> n != v.cargo) && (cn <= 16 ==> n != v.service)
    ensures ChildSide(o, Deallocate(sp, n).space, v, cn + 1)
  {
    var sq := Deallocate(sp, n).space;
    forall m | m in sq ensures ChildEntry(o, m, sq[m], v, cn + 1) {
      assert ChildEntry(o, m, sp[m], v, cn);
    }
  }

  lemma ChildBuried(o: Kernel, sp: Space, v: ChildView, cn: nat, ports: set<Port>)
    requires ChildSide(o, sp, v, cn) && o.next + 1 !in ports
    ensures ChildSide(o, Buried(sp, ports), v, cn)
  {
    var sq := Buried(sp, ports);
    forall m | m in sq ensures ChildEntry(o, m, sq[m], v, cn) {
      assert ChildEntry(o, m, sp[m], v, cn);
    }
  }

  /** Destroying the cargo port. */
  lemma ChildDestroys(o: Kernel, sp: Space, v: ChildView)
    requires ChildSide(o, sp, v, 15) && v.alloc
    ensures v.cargo in sp && sp[v.cargo] == Rights(o.next + 1, true, 0)
    ensures ChildSide(o, Buried(sp - {v.cargo}, {o.next + 1}), v, 16)
  {
    var sq := Buried(sp - {v.cargo}, {o.next + 1});
    forall m | m in sq ensures ChildEntry(o, m, sq[m], v, 16) {
      assert ChildEntry(o, m, sp[m], v, 15);
    }
  }

  lemma ChildReceiveRights(o: Kernel, sp: Space, v: ChildView, cn: nat)
    requires ChildSide(o, sp, v, cn)
    ensures ReceiveRights(sp) <= {o.next + 1}
  {
    forall p | p in ReceiveRights(sp) ensures p == o.next + 1 {
      var n :| n in sp && sp[n].Rights? && sp[n].receive && sp[n].port == p;
      assert ChildEntry(o, n, sp[n], v, cn);
    }
  }

  lemma ChildGone(o: Kernel, v: ChildView, cn: nat)
    requires cn > 17 && (v.extracted ==> v.once != v.cargo && v.once != v.service)
    ensures ChildSide(o, map[], v, cn)
  {
  }

  // ---- the queues ---------------------------------------------------------------------------------------------

  /** Messages in the queue of a port; none if the port is dead. */
  function Waiting(q: map<Port, seq<Message>>, port: Port): nat {
    if port in q then |q[port]| else 0
  }

  lemma QueuesStart(o: Kernel)
    requires Ready(o)
    ensures QueueSide(o, o.queues, false, false, 0) && Waiting(o.queues, o.next + 1) == 0
  {
  }

  lemma QueuesOn(o: Kernel, q: map<Port, seq<Message>>, sent: bool, received: bool, cn: nat, cn': nat)
    requires QueueSide(o, q, sent, received, cn) && cn <= cn'
    ensures QueueSide(o, q, sent, received, cn')
  {
  }

  lemma ServiceQueue(o: Kernel, q: map<Port, seq<Message>>, sent: bool, received: bool, cn: nat)
    requires QueueSide(o, q, sent, received, cn)
    ensures QueueSide(o, q[o.next := []], sent, received, cn)
    ensures Waiting(q[o.next := []], o.next + 1) == Waiting(q, o.next + 1)
  {
  }

  lemma CargoQueueMade(o: Kernel, q: map<Port, seq<Message>>, sent: bool, received: bool)
    requires QueueSide(o, q, sent, received, 3)
    ensures QueueSide(o, q[o.next + 1 := []], sent, received, 4)
    ensures Waiting(q[o.next + 1 := []], o.next + 1) == Waiting(q, o.next + 1) == 0
  {
  }

  lemma DescriptorQueued(o: Kernel, q: map<Port, seq<Message>>, cn: nat)
    requires QueueSide(o, q, false, false, cn) && o.next in q
    ensures q[o.next] == []
    ensures var q' := q[o.next := q[o.next] + [DescriptorMessage(o)]];
            QueueSide(o, q', true, false, cn) && Waiting(q', o.next + 1) == Waiting(q, o.next + 1)
  {
    assert q[o.next] + [DescriptorMessage(o)] == [DescriptorMessage(o)];
  }

  lemma DescriptorReceived(o: Kernel, q: map<Port, seq<Message>>, sent: bool, received: bool, cn: nat)
    requires QueueSide(o, q, sent, received, cn) && o.next in q && q[o.next] != []
    ensures sent && !received && q[o.next][0] == DescriptorMessage(o)
    ensures var q' := q[o.next := q[o.next][1..]];
            QueueSide(o, q', true, true, cn) && Waiting(q', o.next + 1) == Waiting(q, o.next + 1)
  {
    assert q[o.next][1..] == [];
  }

  lemma UseQueued(o: Kernel, q: map<Port, seq<Message>>, sent: bool, received: bool, cn: nat, id: Word)
    requires QueueSide(o, q, sent, received, cn) && o.next + 1 in q
    ensures var q' := q[o.next + 1 := q[o.next + 1] + [Message(id, NoCargo)]];
            QueueSide(o, q', sent, received, cn) && Waiting(q', o.next + 1) == Waiting(q, o.next + 1) + 1
  {
  }

  lemma UseTaken(o: Kernel, q: map<Port, seq<Message>>, sent: bool, received: bool, cn: nat)
    requires QueueSide(o, q, sent, received, cn) && o.next + 1 in q && q[o.next + 1] != []
    ensures q[o.next + 1][0].cargo == NoCargo
    ensures var q' := q[o.next + 1 := q[o.next + 1][1..]];
            QueueSide(o, q', sent, received, cn) && Waiting(q', o.next + 1) <= Waiting(q, o.next + 1)
  {
  }

  lemma QueuesDie(o: Kernel, q: map<Port, seq<Message>>, sent: bool, received: bool, cn: nat, ports: set<Port>)
    requires QueueSide(o, q, sent, received, cn)
    ensures QueueSide(o, q - ports, sent, received, cn)
    ensures Waiting(q - ports, o.next + 1) <= Waiting(q, o.next + 1)
  {
  }

  // ---- at most one right -----------------------------------------------------------------------------------

  lemma NoMoreThanOne(o: Kernel, k: Kernel, pv: ParentView, pn: nat, cv: ChildView, cn: nat)
    requires ParentSide(o, k.parent, pv, pn) && ChildSide(o, k.child, cv, cn)
    requires QueueSide(o, k.queues, cv.sent, pv.received, cn) && (pv.received ==> cv.sent)
    ensures SendOnceRights(k, o.next + 1)
         <= if pv.received then {InSpace(Parent, pv.delivered)} else if cv.sent then {InMessage(o.next, 0)} else {InSpace(Child, cv.once)}
  {
    var port := o.next + 1;
    forall x | x in SendOnceRightsIn(k.parent, Parent, port) ensures x == InSpace(Parent, pv.delivered) && pv.received {
      assert ParentEntry(o, x.name, k.parent[x.name], pv);
    }
    forall x | x in SendOnceRightsIn(k.child, Child, port) ensures x == InSpace(Child, cv.once) && !cv.sent {
      assert ChildEntry(o, x.name, k.child[x.name], cv, cn);
    }
    forall x | x in Carrying(k.queues, CarriedSendOnce(port)) ensures x == InMessage(o.next, 0) && cv.sent && !pv.received {
      assert k.queues[x.port][x.index].cargo == CarriedSendOnce(port);
    }
  }
}
