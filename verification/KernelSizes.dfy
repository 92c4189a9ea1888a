/** How much a kernel call can add to the namespaces: at most one name, and only to the caller's. */
module KernelSizes {
  import opened Pigeonhole
  import opened Baseline
  import opened MachKernel

  /** A call by one task: its namespace has at most one more name, the other's not more. */
  ghost predicate Grown(k: Kernel, t: Task, l: Kernel) {
    && |l.parent| <= |k.parent| + (if t.Parent? then 1 else 0)
    && |l.child| <= |k.child| + (if t.Child? then 1 else 0)
  }

  lemma AtMost(sp: Space, n: Name, sq: Space)
    requires sq.Keys <= sp.Keys + {n}
    ensures |sq| <= |sp| + 1
    ensures sq.Keys <= sp.Keys ==> |sq| <= |sp|
  {
    SubsetCount(sq.Keys, sp.Keys + {n});
    if sq.Keys <= sp.Keys {
      SubsetCount(sq.Keys, sp.Keys);
    }
  }

  lemma SameSize(k: Kernel, t: Task)
    ensures Grown(k, t, k)
  {
  }

  lemma MakeSendSize(k: Kernel, t: Task, n: Name)
    ensures Grown(k, t, With(k, t, MakeSend(SpaceOf(k, t), n).space))
  {
    AtMost(SpaceOf(k, t), n, MakeSend(SpaceOf(k, t), n).space);
  }

  lemma PlusSendSize(sp: Space, port: Port, n: Name)
    ensures |PlusSend(sp, port, n)| <= |sp| + 1
  {
    AtMost(sp, n, PlusSend(sp, port, n));
  }

  lemma DeallocateSize(k: Kernel, t: Task, n: Name)
    ensures Grown(k, t, With(k, t, Deallocate(SpaceOf(k, t), n).space))
  {
    AtMost(SpaceOf(k, t), n, Deallocate(SpaceOf(k, t), n).space);
  }

  lemma GetBootstrapSize(k: Kernel, t: Task, n: Name)
    ensures Grown(k, t, GetBootstrap(k, t, n))
  {
    PlusSendSize(SpaceOf(k, t), BootstrapOf(k, t), n);
  }

  lemma AllocateSize(k: Kernel, t: Task, n: Name)
    ensures Grown(k, t, Allocate(k, t, n))
  {
    AtMost(SpaceOf(k, t), n, SpaceOf(Allocate(k, t, n), t));
  }

  lemma KillSize(k: Kernel, ports: set<Port>)
    ensures |Kill(k, ports).parent| == |k.parent| && |Kill(k, ports).child| == |k.child|
  {
    assert Buried(k.parent, ports).Keys == k.parent.Keys;
    assert Buried(k.child, ports).Keys == k.child.Keys;
  }

  lemma DestroySize(k: Kernel, t: Task, n: Name)
    ensures Grown(k, t, Destroy(k, t, n).k)
  {
    var sp: Space := SpaceOf(k, t);
    if n in sp {
      var without := With(k, t, sp - {n});
      AtMost(sp, n, sp - {n});
      if sp[n].Rights? {
        KillSize(without, {sp[n].port});
      }
    }
  }

  lemma ExitSize(k: Kernel)
    ensures Grown(k, Child, Exit(k, Child))
  {
    KillSize(With(k, Child, map[]), ReceiveRights(k.child));
  }

  lemma SendSize(k: Kernel, t: Task, dest: Name, how: Header, id: Word, d: Descriptor)
    ensures Grown(k, t, Send(k, t, dest, how, id, d).k)
  {
    var sp := SpaceOf(k, t);
    var h := CopyinHeader(sp, dest, how);
    if h.Some? {
      HeaderKeys(sp, dest, how);
      var b := CopyinDescriptor(h.value.space, d);
      if b.Some? {
        DescriptorKeys(h.value.space, d);
        AtMost(sp, dest, b.value.space);
      }
    }
  }

  lemma HeaderKeys(sp: Space, dest: Name, how: Header)
    ensures var h := CopyinHeader(sp, dest, how); h.Some? ==> h.value.space.Keys <= sp.Keys
  {
  }

  lemma DescriptorKeys(sp: Space, d: Descriptor)
    ensures var b := CopyinDescriptor(sp, d); b.Some? ==> b.value.space.Keys <= sp.Keys
  {
  }

  lemma ReceiveSize(k: Kernel, t: Task, port: Port, n: Name)
    requires port in k.queues && k.queues[port] != []
    ensures Grown(k, t, Receive(k, t, port, n).k)
  {
    AtMost(SpaceOf(k, t), n, SpaceOf(Receive(k, t, port, n).k, t));
  }

  lemma AwaitsQueue(k: Kernel, t: Task, n: Name)
    ensures Awaits(k, t, n).Some? ==> Awaits(k, t, n).value in k.queues
  {
  }
}
