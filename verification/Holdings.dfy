/**
 What the parent of a transfer probe holds at any moment of any run, however it is disturbed: layer upon
 layer over its namespace at the start, and what each of its calls and each death of a port does to that.
 */
module Holdings {
  import opened Baseline
  import opened MachKernel
  import opened Rendezvous

  /**
   The parent's names and how far it has come. The delivered right is `right` while its port lives; it may
   have been used up.
   */
  datatype Holding = Holding(bootstrap: Name, service: Name, delivered: Name, right: Entry,
                             got: bool, alloc: bool, made: bool, received: bool, used: bool,
                             reclaimed: bool, destroyed: bool, dropped: bool)

  /** The namespace without the delivered right. */
  function Own(o: Kernel, h: Holding): Space {
    if !h.got || h.dropped then o.parent
    else if !h.alloc || h.destroyed then Held(o, h.bootstrap)
    else Held(o, h.bootstrap)[h.service := Rights(o.next, true, if h.made then 1 else 0)]
  }

  /** A right was delivered under a name and not yet given back. */
  predicate Holds(h: Holding) {
    h.received && !h.reclaimed && h.delivered != MACH_PORT_DEAD
  }

  ghost predicate Owns(o: Kernel, sp: Space, h: Holding) {
    && (h.right == Rights(o.next + 1, false, 1) || h.right == SendOnce(o.next + 1))
    && (h.got ==> SendName(o.parent, o.parentBootstrap, h.bootstrap))
    && (h.alloc ==> h.got && FreeName(Held(o, h.bootstrap), h.service))
    && (h.dropped ==> h.destroyed) && (h.destroyed ==> h.reclaimed)
    && (h.received ==> h.alloc)
    && if Holds(h) then
         FreeName(Own(o, h), h.delivered)
         && (sp == Own(o, h)[h.delivered := h.right] || sp == Own(o, h)[h.delivered := Dead(1)] || (h.used && sp == Own(o, h)))
       else sp == Own(o, h)
  }

  /** What the parent holds besides the delivered right is none of the cargo port's business. */
  lemma OwnFacts(o: Kernel, h: Holding)
    requires Ready(o) && (h.got ==> SendName(o.parent, o.parentBootstrap, h.bootstrap))
    requires h.alloc ==> h.got && FreeName(Held(o, h.bootstrap), h.service)
    ensures WellFormed(Own(o, h)) && Below(Own(o, h), o.next + 1)
    ensures h.got && !h.dropped ==>
              h.bootstrap in Own(o, h) && Own(o, h)[h.bootstrap].Rights? && Own(o, h)[h.bootstrap].port == o.parentBootstrap
              && Own(o, h)[h.bootstrap].sends > 0
    ensures h.bootstrap != MACH_PORT_NULL || !h.got
  {
    if h.got {
      HeldFacts(o, h.bootstrap);
    }
    hide Held;
  }

  lemma OwnsStart(o: Kernel, h: Holding)
    requires !h.got && !h.alloc && !h.received && !h.destroyed && !h.dropped
    requires h.right == Rights(o.next + 1, false, 1) || h.right == SendOnce(o.next + 1)
    ensures Owns(o, o.parent, h)
  {
  }

  lemma OwnsBootstrap(o: Kernel, h: Holding, n: Name)
    requires Owns(o, o.parent, h) && !h.got && !h.alloc && !h.received && SendName(o.parent, o.parentBootstrap, n) && !h.destroyed
    ensures Owns(o, PlusSend(o.parent, o.parentBootstrap, n), h.(bootstrap := n, got := true))
  {
  }

  lemma OwnsAllocation(o: Kernel, sp: Space, h: Holding, n: Name)
    requires Owns(o, sp, h) && h.got && !h.alloc && !h.made && !h.received && !h.destroyed && FreeName(sp, n)
    ensures Owns(o, sp[n := Rights(o.next, true, 0)], h.(service := n, alloc := true))
  {
  }

  lemma OwnsSend(o: Kernel, sp: Space, h: Holding)
    requires Owns(o, sp, h) && h.alloc && !h.made && !h.received && !h.destroyed
    ensures MakeSend(sp, h.service).kr == KERN_SUCCESS && Owns(o, MakeSend(sp, h.service).space, h.(made := true))
  {
    hide Held;
  }

  /** The parent's receive call looks at the service port. */
  lemma OwnsService(o: Kernel, sp: Space, h: Holding)
    requires Owns(o, sp, h) && h.alloc && !h.received && !h.destroyed
    ensures h.service in sp && sp[h.service] == Rights(o.next, true, if h.made then 1 else 0)
  {
  }

  /** A delivered right comes under a new name while its port lives, and as MACH_PORT_DEAD otherwise. */
  lemma OwnsDelivery(o: Kernel, sp: Space, h: Holding, n: Name, alive: bool)
    requires Ready(o) && Owns(o, sp, h) && h.alloc && !h.received && !h.reclaimed && !h.used
    requires if alive then FreeName(sp, n) else n == MACH_PORT_DEAD
    ensures Owns(o, if alive then sp[n := h.right] else sp, h.(delivered := n, received := true))
  {
    hide Held;
  }

  /** The parent has no right for the cargo port before the delivery. */
  lemma NoneBefore(o: Kernel, sp: Space, h: Holding)
    requires Ready(o) && Owns(o, sp, h) && !h.received
    ensures !HasRights(sp, o.next + 1)
  {
    OwnFacts(o, h);
    hide Own, Held;
  }

  lemma OwnsUse(o: Kernel, sp: Space, h: Holding)
    requires Owns(o, sp, h) && Holds(h)
    ensures Owns(o, sp - {h.delivered}, h.(used := true))
  {
    assert Own(o, h.(used := true)) == Own(o, h);
    Undo(Own(o, h), h.delivered, h.right);
    Undo(Own(o, h), h.delivered, Dead(1));
    assert sp - {h.delivered} == Own(o, h);
    hide Own, Held;
  }

  /** Giving back what was delivered, whatever has become of it, leaves nothing of it. */
  lemma OwnsReclaim(o: Kernel, sp: Space, h: Holding)
    requires Ready(o) && Owns(o, sp, h) && h.received && !h.reclaimed
    ensures Owns(o, Deallocate(sp, h.delivered).space, h.(reclaimed := true))
  {
    OwnFacts(o, h);
    assert Own(o, h.(reclaimed := true)) == Own(o, h);
    hide Own, Held;
    if Holds(h) {
      Undo(Own(o, h), h.delivered, h.right);
      Undo(Own(o, h), h.delivered, Dead(1));
    }
    assert Deallocate(sp, h.delivered).space == Own(o, h);
  }

  lemma OwnsNoReclaim(o: Kernel, sp: Space, h: Holding)
    requires Owns(o, sp, h) && !h.received
    ensures Owns(o, sp, h.(reclaimed := true))
  {
  }

  lemma OwnsDestruction(o: Kernel, sp: Space, h: Holding)
    requires Ready(o) && Owns(o, sp, h) && h.reclaimed && !h.destroyed && h.alloc
    ensures h.service in sp && sp[h.service].Rights? && sp[h.service].receive && sp[h.service].port == o.next
    ensures Owns(o, Buried(sp - {h.service}, {o.next}), h.(destroyed := true))
  {
    HeldFacts(o, h.bootstrap);
    Undo(Held(o, h.bootstrap), h.service, Rights(o.next, true, if h.made then 1 else 0));
    hide Held;
    BuriedElsewhere(Held(o, h.bootstrap), {o.next}, o.next);
  }

  lemma OwnsNoDestruction(o: Kernel, sp: Space, h: Holding)
    requires Owns(o, sp, h) && h.reclaimed && !h.alloc
    ensures Owns(o, sp, h.(destroyed := true))
  {
  }

  lemma OwnsDrop(o: Kernel, sp: Space, h: Holding)
    requires Ready(o) && Owns(o, sp, h) && h.got && h.destroyed && !h.dropped
    ensures h.bootstrap != MACH_PORT_NULL
    ensures Owns(o, Deallocate(sp, h.bootstrap).space, h.(dropped := true))
  {
    HeldFacts(o, h.bootstrap);
    hide Held;
  }

  /** The death of the cargo port leaves a dead name of the delivered right at most. */
  lemma OwnsBuried(o: Kernel, sp: Space, h: Holding, ports: set<Port>)
    requires Ready(o) && Owns(o, sp, h) && ports <= {o.next + 1}
    ensures Owns(o, Buried(sp, ports), h)
  {
    OwnFacts(o, h);
    var own := Own(o, h);
    BuriedElsewhere(own, ports, o.next + 1);
    BuriedWith(own, h.delivered, h.right, ports);
    BuriedWith(own, h.delivered, Dead(1), ports);
    hide Own, Held, Buried;
  }

  /** With the bootstrap port restored the parent's set-up has left no trace there. */
  lemma OwnsRestore(o: Kernel, k: Kernel, h: Holding)
    requires Ready(o) && Owns(o, k.parent, h) && h.got && !h.received && !h.dropped
    ensures SetBootstrap(k, Parent, h.bootstrap) == KernelAnswer(k.(parentBootstrap := o.parentBootstrap), KERN_SUCCESS)
  {
    OwnFacts(o, h);
    hide Own, Held;
  }
}
