/**
 How the transfer probes meet: the parent publishes a service port as its bootstrap port, and the
 forked child finds it there. In the following o is the kernel at the start of a run; the first port
 allocated, o.next, is the service port and the second, o.next + 1, the cargo port.
 */
module Rendezvous {
  import opened Baseline
  import opened MachKernel

  /** The parent's namespace with its reference on the bootstrap port. */
  function Held(o: Kernel, bootstrap: Name): Space {
    PlusSend(o.parent, o.parentBootstrap, bootstrap)
  }

  function Serving(o: Kernel, bootstrap: Name, service: Name): Space {
    Held(o, bootstrap)[service := Rights(o.next, true, 1)]
  }

  /** The child's namespace with its reference on the service port. */
  function Found(o: Kernel, published: Name): Space {
    PlusSend(o.child, o.next, published)
  }

  lemma FreshPorts(o: Kernel)
    requires Ready(o)
    ensures o.next !in o.queues && o.next + 1 !in o.queues
  {
  }

  lemma HeldFacts(o: Kernel, bootstrap: Name)
    requires Ready(o) && SendName(o.parent, o.parentBootstrap, bootstrap)
    ensures WellFormed(Held(o, bootstrap)) && Below(Held(o, bootstrap), o.next)
    ensures bootstrap != MACH_PORT_NULL && bootstrap in Held(o, bootstrap)
    ensures var e := Held(o, bootstrap)[bootstrap]; e.Rights? && e.port == o.parentBootstrap && e.sends > 0
    ensures Deallocate(Held(o, bootstrap), bootstrap) == Answer(o.parent, KERN_SUCCESS)
  {
    DeallocateUndoesPlusSend(o.parent, o.parentBootstrap, bootstrap);
  }

  lemma FoundFacts(o: Kernel, published: Name)
    requires Ready(o) && SendName(o.child, o.next, published)
    ensures WellFormed(Found(o, published)) && Below(Found(o, published), o.next + 1)
    ensures published != MACH_PORT_NULL && published in Found(o, published)
    ensures var e := Found(o, published)[published]; e.Rights? && e.port == o.next && e.sends > 0
    ensures Deallocate(Found(o, published), published) == Answer(o.child, KERN_SUCCESS)
  {
    DeallocateUndoesPlusSend(o.child, o.next, published);
  }

  lemma BuriedNothing(ports: set<Port>)
    ensures Buried(map[], ports) == map[]
  {
  }

  lemma BuriedByNobody(sp: Space)
    ensures Buried(sp, {}) == sp
  {
  }

  lemma BelowMore(sp: Space, bound: nat)
    requires Below(sp, bound)
    ensures Below(sp, bound + 1)
  {
  }

  lemma BuriedWithBoth(sp: Space, a: Name, x: Entry, b: Name, y: Entry, ports: set<Port>)
    requires Buried(sp, ports) == sp
    ensures Buried(sp[a := x][b := y], ports) == sp[a := BuriedEntry(x, ports)][b := BuriedEntry(y, ports)]
  {
    hide Buried, BuriedEntry;
    BuriedWith(sp, a, x, ports);
    BuriedWith(sp[a := x], b, y, ports);
  }
}
