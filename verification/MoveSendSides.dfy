/**
 What the child's namespace and the queues of the move-send probe hold of the cargo port in every run,
 timeouts, failed calls and sudden death included, and that each kernel call keeps it.
 */
module MoveSendSides {
  import opened Baseline
  import opened MachKernel
  import opened Rendezvous
  import opened MoveSendVerdict
  import opened MoveSendKernel

  // In the following o is the kernel at the start of a run, so that the first port allocated, o.next, is
  // the service port and o.next + 1 the cargo port; cn says where the child is.

  /** The child's names, and whether it allocated its port. */
  datatype ChildView = ChildView(service: Name, cargo: Name, alloc: bool)

  /** The only receive right is for the cargo port, and every right for that is under its name. */
  predicate ChildEntry(o: Kernel, n: Name, e: Entry, v: ChildView) {
    e.Rights? && (e.receive || e.port == o.next + 1) ==> e.receive && e.port == o.next + 1 && n == v.cargo && v.alloc
  }

  predicate ServiceEntry(o: Kernel, sp: Space, n: Name) {
    n == MACH_PORT_DEAD || (n in sp && (sp[n].Dead? || (sp[n].Rights? && sp[n].port == o.next)))
  }

  ghost predicate ChildSide(o: Kernel, sp: Space, v: ChildView, cn: nat) {
    && MACH_PORT_NULL !in sp && MACH_PORT_DEAD !in sp
    && (forall n | n in sp :: ChildEntry(o, n, sp[n], v))
    && (4 <= cn <= 13 && v.alloc ==> v.cargo in sp && sp[v.cargo].Rights? && sp[v.cargo].receive && sp[v.cargo].port == o.next + 1)
    && (2 <= cn <= 15 ==> ServiceEntry(o, sp, v.service))
  }

  /** The service queue only holds messages with a right for the cargo port, the cargo queue none with a right. */
  ghost predicate QueueSide(o: Kernel, q: map<Port, seq<Message>>) {
    && (o.next in q ==> forall m | m in q[o.next] :: m.cargo == CarriedSend(o.next + 1))
    && (o.next + 1 in q ==> forall m | m in q[o.next + 1] :: m.cargo == NoCargo)
  }

  // ---- the child's namespace --------------------------------------------------------------------------------

  lemma ChildStarts(o: Kernel, v: ChildView)
    requires Ready(o)
    ensures ChildSide(o, o.child, v, 0) && ChildSide(o, o.child, v, 1)
  {
    NoReceiveRights(o.child);
  }

  lemma NoReceiveRights(sp: Space)
    requires ReceiveRights(sp) == {}
    ensures forall n | n in sp :: sp[n].Rights? ==> !sp[n].receive
  {
    if n :| n in sp && sp[n].Rights? && sp[n].receive {
      IsReceiveRight(sp, n);
    }
  }

  lemma IsReceiveRight(sp: Space, n: Name)
    requires n in sp && sp[n].Rights? && sp[n].receive
    ensures sp[n].port in ReceiveRights(sp)
  {
  }

  lemma ChildOn(o: Kernel, sp: Space, v: ChildView, cn: nat)
    requires ChildSide(o, sp, v, cn) && cn != 1 && (cn == 3 ==> !v.alloc)
    ensures ChildSide(o, sp, v, cn + 1)
  {
  }

  lemma ChildFinds(o: Kernel, sp: Space, v: ChildView, n: Name, alive: bool)
    requires ChildSide(o, sp, v, 1) && !v.alloc
    requires if alive then SendName(sp, o.next, n) else n == MACH_PORT_DEAD
    ensures ChildSide(o, if alive then PlusSend(sp, o.next, n) else sp, v.(service := n), 2)
  {
    var w, sq := v.(service := n), if alive then PlusSend(sp, o.next, n) else sp;
    forall m | m in sq ensures ChildEntry(o, m, sq[m], w) {
      if m in sp {
        assert ChildEntry(o, m, sp[m], v);
      }
    }
  }

  lemma ChildAllocates(o: Kernel, sp: Space, v: ChildView, n: Name)
    requires ChildSide(o, sp, v, 3) && FreeName(sp, n) && !v.alloc
    ensures ChildSide(o, sp[n := Rights(o.next + 1, true, 0)], v.(cargo := n, alloc := true), 4)
  {
    var w, sq := v.(cargo := n, alloc := true), sp[n := Rights(o.next + 1, true, 0)];
    forall m | m in sq ensures ChildEntry(o, m, sq[m], w) {
      if m != n {
        assert ChildEntry(o, m, sp[m], v);
      }
    }
  }

  lemma ChildMakesSend(o: Kernel, sp: Space, v: ChildView)
    requires ChildSide(o, sp, v, 4) && v.alloc
    ensures ChildSide(o, MakeSend(sp, v.cargo).space, v, 5)
  {
    var sq := MakeSend(sp, v.cargo).space;
    forall m | m in sq ensures ChildEntry(o, m, sq[m], v) {
      assert ChildEntry(o, m, sp[m], v);
    }
  }

  lemma ChildSends(o: Kernel, sp: Space, v: ChildView)
    requires ChildSide(o, sp, v, 7) && v.alloc && sp[v.cargo].sends > 0
    ensures ChildSide(o, LessSend(sp, v.cargo), v, 8)
  {
    var sq := LessSend(sp, v.cargo);
    forall m | m in sq ensures ChildEntry(o, m, sq[m], v) {
      assert ChildEntry(o, m, sp[m], v);
    }
  }

  /** The service name is not the cargo name while both are there. */
  lemma ChildDrops(o: Kernel, sp: Space, v: ChildView, n: Name)
    requires ChildSide(o, sp, v, 15)
    ensures ChildSide(o, Deallocate(sp, n).space, v, 16)
  {
    var sq := Deallocate(sp, n).space;
    forall m | m in sq ensures ChildEntry(o, m, sq[m], v) {
      assert ChildEntry(o, m, sp[m], v);
    }
  }

  lemma ChildBuried(o: Kernel, sp: Space, v: ChildView, cn: nat, ports: set<Port>)
    requires ChildSide(o, sp, v, cn) && o.next + 1 !in ports
    ensures ChildSide(o, Buried(sp, ports), v, cn)
  {
    var sq := Buried(sp, ports);
    forall m | m in sq ensures ChildEntry(o, m, sq[m], v) {
      assert ChildEntry(o, m, sp[m], v);
    }
  }

  /** Destroying the cargo port. */
  lemma ChildDestroys(o: Kernel, sp: Space, v: ChildView)
    requires ChildSide(o, sp, v, 13) && v.alloc
    ensures v.cargo in sp && sp[v.cargo].Rights? && sp[v.cargo].receive && sp[v.cargo].port == o.next + 1
    ensures ChildSide(o, Buried(sp - {v.cargo}, {o.next + 1}), v, 14)
  {
    var sq := Buried(sp - {v.cargo}, {o.next + 1});
    forall m | m in sq ensures ChildEntry(o, m, sq[m], v) {
      assert ChildEntry(o, m, sp[m], v);
    }
  }

  lemma ChildReceiveRights(o: Kernel, sp: Space, v: ChildView, cn: nat)
    requires ChildSide(o, sp, v, cn)
    ensures ReceiveRights(sp) <= {o.next + 1}
  {
    forall p | p in ReceiveRights(sp) ensures p == o.next + 1 {
      var n :| n in sp && sp[n].Rights? && sp[n].receive && sp[n].port == p;
      assert ChildEntry(o, n, sp[n], v);
    }
  }

  lemma ChildGone(o: Kernel, v: ChildView, cn: nat)
    requires cn > 15
    ensures ChildSide(o, map[], v, cn)
  {
  }

  // ---- the queues ---------------------------------------------------------------------------------------------

  lemma QueuesStart(o: Kernel)
    requires Ready(o)
    ensures QueueSide(o, o.queues)
  {
  }

  lemma QueueMade(o: Kernel, q: map<Port, seq<Message>>, port: Port)
    requires QueueSide(o, q)
    ensures QueueSide(o, q[port := []])
  {
  }

  lemma QueueLess(o: Kernel, q: map<Port, seq<Message>>, port: Port)
    requires QueueSide(o, q) && port in q && q[port] != []
    ensures QueueSide(o, q[port := q[port][1..]])
  {
    assert forall m | m in q[port][1..] :: m in q[port];
  }

  lemma QueueMore(o: Kernel, q: map<Port, seq<Message>>, port: Port, m: Message)
    requires QueueSide(o, q) && port in q
    requires port == o.next ==> m.cargo == CarriedSend(o.next + 1)
    requires port == o.next + 1 ==> m.cargo == NoCargo
    ensures QueueSide(o, q[port := q[port] + [m]])
  {
  }

  lemma QueuesDie(o: Kernel, q: map<Port, seq<Message>>, ports: set<Port>)
    requires QueueSide(o, q)
    ensures QueueSide(o, q - ports)
  {
  }

  lemma ServiceFirst(o: Kernel, q: map<Port, seq<Message>>)
    requires QueueSide(o, q) && o.next in q && q[o.next] != []
    ensures q[o.next][0].cargo == CarriedSend(o.next + 1)
  {
    assert q[o.next][0] in q[o.next];
  }

  lemma CargoFirst(o: Kernel, q: map<Port, seq<Message>>)
    requires QueueSide(o, q) && o.next + 1 in q && q[o.next + 1] != []
    ensures q[o.next + 1][0].cargo == NoCargo
  {
    assert q[o.next + 1][0] in q[o.next + 1];
  }
}
