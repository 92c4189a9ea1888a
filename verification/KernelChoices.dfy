/** The kernel always finds a name for something new, and an order in which to list a namespace. */
module KernelChoices {
  import opened Pigeonhole
  import opened Baseline
  import opened MachKernel

  lemma FreeNameExists(sp: Space) returns (n: Name)
    requires |sp| < 0x8000_0000
    ensures FreeName(sp, n)
  {
    var candidates: seq<Name> := seq(|sp| + 1, i requires 0 <= i <= |sp| => i + 1);
    var i := FreeCandidate(candidates, sp.Keys);
    n := candidates[i];
  }

  lemma SendNameExists(sp: Space, port: Port) returns (n: Name)
    requires |sp| < 0x8000_0000
    ensures SendName(sp, port, n)
  {
    if HasRights(sp, port) {
      n :| n in sp && sp[n].Rights? && sp[n].port == port;
    } else {
      n := FreeNameExists(sp);
    }
  }

  lemma DeliveryNameExists(k: Kernel, t: Task, c: Cargo) returns (n: Name)
    requires |SpaceOf(k, t)| < 0x8000_0000
    ensures DeliveryName(k, t, c, n)
  {
    match c
    case CarriedSend(port) => n := SendNameExists(SpaceOf(k, t), port);
    case _ => n := FreeNameExists(SpaceOf(k, t));
  }

  lemma BootstrapNameExists(k: Kernel, t: Task) returns (n: Name)
    requires |SpaceOf(k, t)| < 0x8000_0000
    ensures BootstrapName(k, t, n)
  {
    n := MACH_PORT_DEAD;
    if BootstrapOf(k, t) in k.queues {
      n := SendNameExists(SpaceOf(k, t), BootstrapOf(k, t));
    }
  }

  lemma {:induction false} OrderExists(names: set<Name>) returns (order: seq<Name>)
    ensures NoDuplicates(order) && Elements(order) == names
  {
    order := [];
    if names != {} {
      var n :| n in names;
      var rest := OrderExists(names - {n});
      assert forall m | m in rest :: m in Elements(rest);
      order := rest + [n];
      assert order[|rest|] == n;
      assert forall m :: m in order <==> m in rest || m == n;
      assert forall m | m in names && m != n :: m in Elements(rest);
    }
  }

  lemma ListingExists(sp: Space, supported: bool) returns (s: Snapshot)
    ensures Listing(sp, supported, s)
  {
    s := Snapshot([], [], false, KERN_NOT_SUPPORTED);
    if supported {
      var names := OrderExists(sp.Keys);
      assert forall i | 0 <= i < |names| :: names[i] in Elements(names);
      s := Snapshot(names, seq(|names|, i requires 0 <= i < |names| => TypeOf(sp[names[i]])), true, KERN_SUCCESS);
    }
  }

  lemma ListsExists(k: Kernel, t: Task) returns (s: Snapshot)
    ensures Lists(k, t, s)
  {
    s := ListingExists(SpaceOf(k, t), k.listing);
  }
}
