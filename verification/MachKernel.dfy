/**
 The Mach port operations the transfer probes call, on values: two tasks' port namespaces, message
 queues, and ports that die with their receive right. It obeys the accepted contract of the
 oracle roadmap and says nothing about descriptors beyond it.
 */
module MachKernel {
  import opened Pigeonhole
  import opened Baseline

  datatype Option<T> = None | Some(value: T)

  type Name = Word
  type Port = nat

  const MACH_PORT_NULL: Name := 0
  const MACH_PORT_DEAD: Name := 0xffff_ffff

  const KERN_NO_SPACE: Word := 3
  const KERN_FAILURE: Word := 5
  const KERN_INVALID_NAME: Word := 15
  const KERN_INVALID_RIGHT: Word := 17
  const MACH_MSG_SUCCESS: Word := 0
  const MACH_SEND_INVALID_DEST: Word := 0x1000_0003
  const MACH_SEND_TIMED_OUT: Word := 0x1000_0004
  const MACH_SEND_INVALID_RIGHT: Word := 0x1000_0009
  const MACH_RCV_INVALID_NAME: Word := 0x1000_4002
  const MACH_RCV_TIMED_OUT: Word := 0x1000_4003

  const TYPE_SEND: Word := 0x1_0000
  const TYPE_RECEIVE: Word := 0x2_0000
  const TYPE_SEND_RECEIVE: Word := 0x3_0000
  const TYPE_SEND_ONCE: Word := 0x4_0000
  const TYPE_PORT_SET: Word := 0x8_0000
  const TYPE_DEAD_NAME: Word := 0x10_0000

  /** Messages a queue takes before senders have to wait. */
  const QUEUE_LIMIT: nat := 5

  /** What a name denotes. Send rights for one port share one name, with its receive right. */
  datatype Entry =
    | Rights(port: Port, receive: bool, sends: nat)
    | SendOnce(port: Port)
    | Dead(refs: nat)
    | PortSet

  type Space = map<Name, Entry>

  function TypeOf(e: Entry): Word {
    match e
    case Rights(_, receive, sends) =>
      (if receive then TYPE_RECEIVE else 0) + (if sends > 0 then TYPE_SEND else 0)
    case SendOnce(_) => TYPE_SEND_ONCE
    case Dead(_) => TYPE_DEAD_NAME
    case PortSet => TYPE_PORT_SET
  }

  predicate HasSend(mask: Word) {
    mask / TYPE_SEND % 2 == 1
  }

  predicate HasSendOnce(mask: Word) {
    mask / TYPE_SEND_ONCE % 2 == 1
  }

  /** A mask with the bit of a power of two set, between the higher bits and the lower ones. */
  ghost predicate BitShown(mask: Word, bit: Word, high: nat, low: nat) {
    low < bit && mask == 2 * bit * high + bit + low
  }

  /** A type mask shows a send right in bit 16 and a send-once right in bit 18, whatever else it shows. */
  lemma TypeBits(mask: Word)
    ensures HasSend(mask) <==> exists high: nat, low: nat :: BitShown(mask, 0x1_0000, high, low)
    ensures HasSendOnce(mask) <==> exists high: nat, low: nat :: BitShown(mask, 0x4_0000, high, low)
  {
    if HasSend(mask) {
      assert BitShown(mask, 0x1_0000, mask / 0x1_0000 / 2, mask % 0x1_0000);
    }
    if HasSendOnce(mask) {
      assert BitShown(mask, 0x4_0000, mask / 0x4_0000 / 2, mask % 0x4_0000);
    }
    forall high: nat, low: nat | BitShown(mask, 0x1_0000, high, low) ensures HasSend(mask) {
      assert mask / 0x1_0000 == 2 * high + 1;
    }
    forall high: nat, low: nat | BitShown(mask, 0x4_0000, high, low) ensures HasSendOnce(mask) {
      assert mask / 0x4_0000 == 2 * high + 1;
    }
  }

  /** And a kernel's answer shows what the name denotes. */
  lemma TypeShowsRights(e: Entry)
    ensures HasSend(TypeOf(e)) <==> e.Rights? && e.sends > 0
    ensures HasSendOnce(TypeOf(e)) <==> e.SendOnce?
  {
  }

  /** No reference is left: the call counts none, or there is no such right or name. */
  predicate NoneLeft(kr: Word, refs: Word) {
    if kr == KERN_SUCCESS then refs == 0 else kr == KERN_INVALID_RIGHT || kr == KERN_INVALID_NAME
  }

  /** Every port an entry names is below a bound; fresh ports are numbered from there. */
  ghost predicate Below(sp: Space, bound: nat) {
    forall n | n in sp :: (sp[n].Rights? || sp[n].SendOnce?) ==> sp[n].port < bound
  }

  ghost predicate WellFormed(sp: Space) {
    && MACH_PORT_NULL !in sp && MACH_PORT_DEAD !in sp
    && (forall n | n in sp :: sp[n].Rights? ==> sp[n].receive || sp[n].sends > 0)
  }

  predicate ValidName(n: Name) {
    n != MACH_PORT_NULL && n != MACH_PORT_DEAD
  }

  /** A name the kernel may pick for something new. */
  predicate FreeName(sp: Space, n: Name) {
    ValidName(n) && n !in sp
  }

  ghost predicate HasRights(sp: Space, port: Port) {
    exists n | n in sp :: sp[n].Rights? && sp[n].port == port
  }

  // ---- operations on one namespace --------------------------------------------------------------------

  datatype Answer = Answer(space: Space, kr: Word)
  datatype Reading = Reading(kr: Word, value: Word)

  /** `mach_port_type` */
  function Type(sp: Space, n: Name): Reading {
    if n in sp then Reading(KERN_SUCCESS, TypeOf(sp[n])) else Reading(KERN_INVALID_NAME, 0)
  }

  function Saturated(n: nat): Word {
    if n < 0x1_0000_0000 then n else 0xffff_ffff
  }

  /** `mach_port_get_refs` for send rights: a name without one has zero. */
  function SendRefs(sp: Space, n: Name): Reading {
    if n !in sp then Reading(KERN_INVALID_NAME, 0)
    else if sp[n].Rights? then Reading(KERN_SUCCESS, Saturated(sp[n].sends))
    else Reading(KERN_SUCCESS, 0)
  }

  function SendOnceRefs(sp: Space, n: Name): Reading {
    if n !in sp then Reading(KERN_INVALID_NAME, 0)
    else if sp[n].SendOnce? then Reading(KERN_SUCCESS, 1)
    else Reading(KERN_SUCCESS, 0)
  }

  function DeadRefs(sp: Space, n: Name): Reading {
    if n !in sp then Reading(KERN_INVALID_NAME, 0)
    else if sp[n].Dead? then Reading(KERN_SUCCESS, Saturated(sp[n].refs))
    else Reading(KERN_SUCCESS, 0)
  }

  /** `mach_port_insert_right` of the name itself with MACH_MSG_TYPE_MAKE_SEND. */
  function MakeSend(sp: Space, n: Name): Answer {
    if n !in sp then Answer(sp, KERN_INVALID_NAME)
    else if sp[n].Rights? && sp[n].receive then Answer(sp[n := sp[n].(sends := sp[n].sends + 1)], KERN_SUCCESS)
    else Answer(sp, KERN_INVALID_RIGHT)
  }

  /** `mach_port_extract_right` with MACH_MSG_TYPE_MAKE_SEND_ONCE, to a new name. */
  function ExtractOnce(sp: Space, n: Name, made: Name): Answer {
    if n !in sp then Answer(sp, KERN_INVALID_NAME)
    else if sp[n].Rights? && sp[n].receive then Answer(sp[made := SendOnce(sp[n].port)], KERN_SUCCESS)
    else Answer(sp, KERN_INVALID_RIGHT)
  }

  /** One send reference less; the name goes with the last right it denotes. */
  function LessSend(sp: Space, n: Name): Space
    requires n in sp && sp[n].Rights? && sp[n].sends > 0
  {
    if sp[n].sends == 1 && !sp[n].receive then sp - {n} else sp[n := sp[n].(sends := sp[n].sends - 1)]
  }

  function LessDead(sp: Space, n: Name): Space
    requires n in sp && sp[n].Dead?
  {
    if sp[n].refs <= 1 then sp - {n} else sp[n := Dead(sp[n].refs - 1)]
  }

  /** `mach_port_deallocate` */
  function Deallocate(sp: Space, n: Name): Answer {
    if n !in sp then Answer(sp, KERN_INVALID_NAME)
    else match sp[n]
      case Rights(_, _, sends) =>
        if sends > 0 then Answer(LessSend(sp, n), KERN_SUCCESS) else Answer(sp, KERN_INVALID_RIGHT)
      case SendOnce(_) => Answer(sp - {n}, KERN_SUCCESS)
      case Dead(_) => Answer(LessDead(sp, n), KERN_SUCCESS)
      case PortSet => Answer(sp, KERN_INVALID_RIGHT)
  }

  /** The names under which one more send right for a port may appear. */
  ghost predicate SendName(sp: Space, port: Port, n: Name) {
    if HasRights(sp, port) then n in sp && sp[n].Rights? && sp[n].port == port else FreeName(sp, n)
  }

  function PlusSend(sp: Space, port: Port, n: Name): Space {
    if n in sp && sp[n].Rights? then sp[n := sp[n].(sends := sp[n].sends + 1)] else sp[n := Rights(port, false, 1)]
  }

  /** A right for a dead port becomes a dead name. */
  function BuriedEntry(e: Entry, ports: set<Port>): Entry {
    match e
    case Rights(port, _, sends) => if port in ports then Dead(sends) else e
    case SendOnce(port) => if port in ports then Dead(1) else e
    case _ => e
  }

  function Buried(sp: Space, ports: set<Port>): Space {
    map n | n in sp :: BuriedEntry(sp[n], ports)
  }

  function ReceiveRights(sp: Space): set<Port> {
    set n | n in sp && sp[n].Rights? && sp[n].receive :: sp[n].port
  }

  // ---- operations on the kernel -------------------------------------------------------------------------

  datatype Task = Parent | Child

  /** A right travelling in a port descriptor. */
  datatype Cargo = NoCargo | CarriedSend(port: Port) | CarriedSendOnce(port: Port) | CarriedDead

  datatype Message = Message(id: Word, cargo: Cargo)

  function DescriptorCount(m: Message): Word {
    if m.cargo.NoCargo? then 0 else 1
  }

  /** Ports with a queue are alive. The two special ports are the tasks' bootstrap ports. */
  datatype Kernel = Kernel(parent: Space, child: Space, queues: map<Port, seq<Message>>,
                           parentBootstrap: Port, childBootstrap: Port, next: Port, listing: bool)

  function SpaceOf(k: Kernel, t: Task): Space {
    if t.Parent? then k.parent else k.child
  }

  function With(k: Kernel, t: Task, sp: Space): Kernel {
    if t.Parent? then k.(parent := sp) else k.(child := sp)
  }

  function BootstrapOf(k: Kernel, t: Task): Port {
    if t.Parent? then k.parentBootstrap else k.childBootstrap
  }

  /** `mach_port_names`: the entries in any order, or the unsupported call. */
  ghost predicate Lists(k: Kernel, t: Task, s: Snapshot) {
    Listing(SpaceOf(k, t), k.listing, s)
  }

  ghost predicate Listing(sp: Space, supported: bool, s: Snapshot) {
    if supported then
      && s.valid && s.kr == KERN_SUCCESS && |s.names| == |s.types|
      && NoDuplicates(s.names) && Elements(s.names) == sp.Keys
      && forall i | 0 <= i < |s.names| :: s.types[i] == TypeOf(sp[s.names[i]])
    else
      s == Snapshot([], [], false, KERN_NOT_SUPPORTED)
  }

  /** `mach_port_allocate` of a receive right under a name the kernel picks. */
  function Allocate(k: Kernel, t: Task, n: Name): Kernel {
    With(k, t, SpaceOf(k, t)[n := Rights(k.next, true, 0)]).(queues := k.queues[k.next := []], next := k.next + 1)
  }

  /** Ports whose receive right is gone: their queues go and every right for them is buried. */
  function Kill(k: Kernel, ports: set<Port>): Kernel {
    k.(parent := Buried(k.parent, ports), child := Buried(k.child, ports), queues := k.queues - ports)
  }

  /** The name under which a task's bootstrap port may appear. */
  ghost predicate BootstrapName(k: Kernel, t: Task, n: Name) {
    if BootstrapOf(k, t) in k.queues then SendName(SpaceOf(k, t), BootstrapOf(k, t), n) else n == MACH_PORT_DEAD
  }

  /** `task_get_special_port` */
  function GetBootstrap(k: Kernel, t: Task, n: Name): Kernel {
    if BootstrapOf(k, t) in k.queues then With(k, t, PlusSend(SpaceOf(k, t), BootstrapOf(k, t), n)) else k
  }

  datatype KernelAnswer = KernelAnswer(k: Kernel, kr: Word)

  /** `task_set_special_port`: needs a send right for the port. */
  function SetBootstrap(k: Kernel, t: Task, n: Name): KernelAnswer {
    var sp := SpaceOf(k, t);
    if n in sp && sp[n].Rights? && sp[n].sends > 0 then
      KernelAnswer(if t.Parent? then k.(parentBootstrap := sp[n].port) else k.(childBootstrap := sp[n].port), KERN_SUCCESS)
    else KernelAnswer(k, MACH_SEND_INVALID_RIGHT)
  }

  /** `mach_port_destroy` */
  function Destroy(k: Kernel, t: Task, n: Name): KernelAnswer {
    var sp := SpaceOf(k, t);
    if n !in sp then KernelAnswer(k, KERN_INVALID_NAME)
    else
      var without := With(k, t, sp - {n});
      KernelAnswer(if sp[n].Rights? && sp[n].receive then Kill(without, {sp[n].port}) else without, KERN_SUCCESS)
  }

  /** The end of a task: its receive rights die with its namespace. */
  function Exit(k: Kernel, t: Task): Kernel {
    Kill(With(k, t, map[]), ReceiveRights(SpaceOf(k, t)))
  }

  /** How a message names its destination, and the right it carries. */
  datatype Header = CopySend | MoveSendOnce
  datatype Descriptor = NoDescriptor | MoveSend(name: Name) | MoveOnce(name: Name)

  datatype Copyin<T> = Copyin(space: Space, what: T)

  function CopyinHeader(sp: Space, dest: Name, how: Header): Option<Copyin<Port>> {
    if dest !in sp then None
    else match how
      case CopySend =>
        if sp[dest].Rights? && sp[dest].sends > 0 then Some(Copyin(sp, sp[dest].port)) else None
      case MoveSendOnce =>
        if sp[dest].SendOnce? then Some(Copyin(sp - {dest}, sp[dest].port)) else None
  }

  function CopyinDescriptor(sp: Space, d: Descriptor): Option<Copyin<Cargo>> {
    match d
    case NoDescriptor => Some(Copyin(sp, NoCargo))
    case MoveSend(n) =>
      if n in sp && sp[n].Rights? && sp[n].sends > 0 then Some(Copyin(LessSend(sp, n), CarriedSend(sp[n].port)))
      else if n in sp && sp[n].Dead? then Some(Copyin(LessDead(sp, n), CarriedDead))
      else None
    case MoveOnce(n) =>
      if n in sp && sp[n].SendOnce? then Some(Copyin(sp - {n}, CarriedSendOnce(sp[n].port)))
      else if n in sp && sp[n].Dead? then Some(Copyin(LessDead(sp, n), CarriedDead))
      else None
  }

  /** `mach_msg` with MACH_SEND_MSG and a timeout; a refused message changes nothing. */
  function Send(k: Kernel, t: Task, dest: Name, how: Header, id: Word, d: Descriptor): KernelAnswer {
    var h := CopyinHeader(SpaceOf(k, t), dest, how);
    if h.None? || h.value.what !in k.queues then KernelAnswer(k, MACH_SEND_INVALID_DEST)
    else
      var port := h.value.what;
      var b := CopyinDescriptor(h.value.space, d);
      if b.None? then KernelAnswer(k, MACH_SEND_INVALID_RIGHT)
      else if how.CopySend? && |k.queues[port]| >= QUEUE_LIMIT then KernelAnswer(k, MACH_SEND_TIMED_OUT)
      else KernelAnswer(With(k, t, b.value.space).(queues := k.queues[port := k.queues[port] + [Message(id, b.value.what)]]),
                        MACH_MSG_SUCCESS)
  }

  datatype Delivery = Delivery(space: Space, name: Name)

  /** The name under which a carried right may arrive. */
  ghost predicate DeliveryName(k: Kernel, t: Task, c: Cargo, n: Name) {
    match c
    case NoCargo => true
    case CarriedSend(port) => port in k.queues ==> SendName(SpaceOf(k, t), port, n)
    case CarriedSendOnce(port) => port in k.queues ==> FreeName(SpaceOf(k, t), n)
    case CarriedDead => FreeName(SpaceOf(k, t), n)
  }

  /** A right whose port died on the way arrives as MACH_PORT_DEAD. */
  function Copyout(k: Kernel, t: Task, c: Cargo, n: Name): Delivery {
    var sp := SpaceOf(k, t);
    match c
    case NoCargo => Delivery(sp, MACH_PORT_NULL)
    case CarriedSend(port) => if port in k.queues then Delivery(PlusSend(sp, port, n), n) else Delivery(sp, MACH_PORT_DEAD)
    case CarriedSendOnce(port) => if port in k.queues then Delivery(sp[n := SendOnce(port)], n) else Delivery(sp, MACH_PORT_DEAD)
    case CarriedDead => Delivery(sp[n := Dead(1)], n)
  }

  /** The queue a receive call on a name waits for. */
  function Awaits(k: Kernel, t: Task, n: Name): Option<Port> {
    var sp := SpaceOf(k, t);
    if n in sp && sp[n].Rights? && sp[n].receive && sp[n].port in k.queues then Some(sp[n].port) else None
  }

  datatype Received = Received(k: Kernel, message: Message, name: Name)

  /** `mach_msg` with MACH_RCV_MSG when a message is there. */
  function Receive(k: Kernel, t: Task, port: Port, n: Name): Received
    requires port in k.queues && k.queues[port] != []
  {
    var message := k.queues[port][0];
    var k1 := k.(queues := k.queues[port := k.queues[port][1..]]);
    var d := Copyout(k1, t, message.cargo, n);
    Received(With(k1, t, d.space), message, d.name)
  }

  // ---- where rights are ---------------------------------------------------------------------------------

  datatype Place = InSpace(task: Task, name: Name) | InMessage(port: Port, index: nat)

  ghost function SendRightsIn(sp: Space, t: Task, port: Port): set<Place> {
    set n | n in sp && sp[n].Rights? && sp[n].port == port && sp[n].sends > 0 :: InSpace(t, n)
  }

  ghost function SendOnceRightsIn(sp: Space, t: Task, port: Port): set<Place> {
    set n | n in sp && sp[n] == SendOnce(port) :: InSpace(t, n)
  }

  ghost function Carrying(queues: map<Port, seq<Message>>, cargo: Cargo): set<Place> {
    set p, i | p in queues && 0 <= i < |queues[p]| && queues[p][i].cargo == cargo :: InMessage(p, i)
  }

  /** Everywhere there is a send right for a port. */
  ghost function SendRights(k: Kernel, port: Port): set<Place> {
    SendRightsIn(k.parent, Parent, port) + SendRightsIn(k.child, Child, port) + Carrying(k.queues, CarriedSend(port))
  }

  ghost function SendOnceRights(k: Kernel, port: Port): set<Place> {
    SendOnceRightsIn(k.parent, Parent, port) + SendOnceRightsIn(k.child, Child, port) + Carrying(k.queues, CarriedSendOnce(port))
  }

  /** Queued messages carry rights for known ports only. */
  ghost predicate CarryBelow(queues: map<Port, seq<Message>>, bound: nat) {
    forall p, i | p in queues && 0 <= i < |queues[p]| ::
      var c := queues[p][i].cargo; (c.CarriedSend? || c.CarriedSendOnce?) ==> c.port < bound
  }

  /** Any kernel in which the bootstrap port lives and a forked child starts without receive rights. */
  ghost predicate Ready(k: Kernel) {
    && WellFormed(k.parent) && WellFormed(k.child)
    && Below(k.parent, k.next) && Below(k.child, k.next + 1)
    && ReceiveRights(k.child) == {}
    && (forall p | p in k.queues :: p < k.next) && CarryBelow(k.queues, k.next)
    && k.parentBootstrap in k.queues
    && |k.parent| < 0x7fff_ff00 && |k.child| < 0x7fff_ff00
  }

  // ---- laws -------------------------------------------------------------------------------------------------

  /** Giving back a send right that was just obtained restores the namespace. */
  lemma DeallocateUndoesPlusSend(sp: Space, port: Port, n: Name)
    requires WellFormed(sp) && SendName(sp, port, n)
    ensures Deallocate(PlusSend(sp, port, n), n) == Answer(sp, KERN_SUCCESS)
  {
    var more := PlusSend(sp, port, n);
    if n in sp {
      assert more[n].sends == sp[n].sends + 1;
    }
    assert Deallocate(more, n).space == sp;
  }

  /** User references of a name. */
  function UserRefs(sp: Space, n: Name): nat {
    if n !in sp then 0
    else match sp[n] case Rights(_, _, sends) => sends case SendOnce(_) => 1 case Dead(refs) => refs case PortSet => 0
  }

  /**
   Deallocating takes exactly one user reference from a name that has some, and nothing else; the name
   goes with its last reference, unless it still denotes a receive right. Otherwise nothing changes.
   */
  lemma DeallocateTakesOne(sp: Space, n: Name)
    requires n in sp && sp[n].Dead? ==> sp[n].refs > 0
    ensures var a := Deallocate(sp, n);
            && (a.kr == KERN_SUCCESS <==> UserRefs(sp, n) > 0)
            && (a.kr != KERN_SUCCESS ==> a.space == sp)
            && (a.kr == KERN_SUCCESS ==>
                && UserRefs(a.space, n) == UserRefs(sp, n) - 1
                && (n in a.space <==> UserRefs(sp, n) > 1 || (sp[n].Rights? && sp[n].receive))
                && a.space - {n} == sp - {n})
  {
    var a := Deallocate(sp, n);
    if a.kr == KERN_SUCCESS {
      assert forall m | m != n :: m in a.space <==> m in sp;
    }
  }

  /** A death only concerns names for the port. */
  lemma BuriedElsewhere(sp: Space, ports: set<Port>, bound: nat)
    requires Below(sp, bound) && forall p | p in ports :: p >= bound
    ensures Buried(sp, ports) == sp
  {
  }

  lemma BuriedWith(sp: Space, n: Name, e: Entry, ports: set<Port>)
    ensures Buried(sp[n := e], ports) == Buried(sp, ports)[n := BuriedEntry(e, ports)]
  {
  }

  lemma Undo<K, V>(m: map<K, V>, k: K, v: V)
    requires k !in m
    ensures m[k := v] - {k} == m
  {
  }

  /** There is room for one more message; a send-once right may always be used. */
  predicate Accepts(k: Kernel, port: Port, how: Header) {
    port in k.queues && (how.CopySend? ==> |k.queues[port]| < QUEUE_LIMIT)
  }

  /** A message that is not refused: the rights are consumed, and it is queued behind all others. */
  lemma Sent(k: Kernel, t: Task, dest: Name, how: Header, id: Word, d: Descriptor, port: Port, between: Space, after: Space, cargo: Cargo)
    requires CopyinHeader(SpaceOf(k, t), dest, how) == Some(Copyin(between, port))
    requires CopyinDescriptor(between, d) == Some(Copyin(after, cargo))
    requires Accepts(k, port, how)
    ensures Send(k, t, dest, how, id, d)
              == KernelAnswer(With(k, t, after).(queues := k.queues[port := k.queues[port] + [Message(id, cargo)]]), MACH_MSG_SUCCESS)
  {
    hide CopyinHeader, CopyinDescriptor, With, SpaceOf;
  }

  /** A message goes out only if header and descriptor name rights and the queue has room; if not, nothing changes. */
  lemma Refused(k: Kernel, t: Task, dest: Name, how: Header, id: Word, d: Descriptor)
    ensures var h := CopyinHeader(SpaceOf(k, t), dest, how);
            (Send(k, t, dest, how, id, d).kr == MACH_MSG_SUCCESS)
            <==> (h.Some? && CopyinDescriptor(h.value.space, d).Some? && Accepts(k, h.value.what, how))
    ensures Send(k, t, dest, how, id, d).kr != MACH_MSG_SUCCESS ==> Send(k, t, dest, how, id, d).k == k
  {
    hide CopyinHeader, CopyinDescriptor, With, SpaceOf;
  }

  /** To an empty queue. */
  lemma SentFirst(k: Kernel, t: Task, dest: Name, how: Header, id: Word, d: Descriptor, port: Port, between: Space, after: Space, cargo: Cargo)
    requires CopyinHeader(SpaceOf(k, t), dest, how) == Some(Copyin(between, port))
    requires CopyinDescriptor(between, d) == Some(Copyin(after, cargo))
    requires port in k.queues && k.queues[port] == []
    ensures Send(k, t, dest, how, id, d)
              == KernelAnswer(With(k, t, after).(queues := k.queues[port := [Message(id, cargo)]]), MACH_MSG_SUCCESS)
  {
    hide CopyinHeader, CopyinDescriptor, With, SpaceOf, Send;
    Sent(k, t, dest, how, id, d, port, between, after, cargo);
    assert k.queues[port] + [Message(id, cargo)] == [Message(id, cargo)];
  }

  /** Destroying a receive right. */
  lemma Destroyed(k: Kernel, t: Task, n: Name)
    requires n in SpaceOf(k, t) && SpaceOf(k, t)[n].Rights? && SpaceOf(k, t)[n].receive
    ensures Destroy(k, t, n) == KernelAnswer(Kill(With(k, t, SpaceOf(k, t) - {n}), {SpaceOf(k, t)[n].port}), KERN_SUCCESS)
  {
    hide Kill, With;
  }

  /** Any two listings of one namespace match, with no difference in size. */
  lemma ListingsMatch(sp: Space, supported: bool, a: Snapshot, b: Snapshot)
    requires Listing(sp, supported, a) && Listing(sp, supported, b)
    ensures Matches(a, b) && |a.names| == |b.names|
    ensures !BlocksProbe(a)
  {
    if supported {
      ElementCount(a.names);
      ElementCount(b.names);
      forall e | e in Entries(a) ensures e in Entries(b) {
        var i :| 0 <= i < |a.names| && Entries(a)[i] == e;
        assert a.names[i] in Elements(b.names);
        var j :| 0 <= j < |b.names| && b.names[j] == a.names[i];
        assert Entries(b)[j] == e;
      }
    }
  }

  /** And listings that match are listings of namespaces with the same names of the same types. */
  lemma MatchingListings(x: Space, y: Space, a: Snapshot, b: Snapshot)
    requires Listing(x, true, a) && Listing(y, true, b) && Matches(a, b)
    ensures x.Keys == y.Keys && forall n | n in x :: TypeOf(x[n]) == TypeOf(y[n])
  {
    ElementCount(a.names);
    ElementCount(b.names);
    forall n | n in x ensures n in y && TypeOf(x[n]) == TypeOf(y[n]) {
      assert n in Elements(a.names);
      var i :| 0 <= i < |a.names| && a.names[i] == n;
      assert Entries(a)[i] in Elements(Entries(a));
      assert Entries(a)[i] in Entries(b);
      var j :| 0 <= j < |b.names| && Entries(b)[j] == Entries(a)[i];
      assert b.names[j] in Elements(b.names);
    }
    SubsetCount(x.Keys, y.Keys);
  }

  lemma NoneIn(sp: Space, t: Task, port: Port)
    requires Below(sp, port)
    ensures SendRightsIn(sp, t, port) == {} && SendOnceRightsIn(sp, t, port) == {}
  {
  }

  /** One more entry where there was no right. */
  lemma FirstIn(sp: Space, t: Task, port: Port, n: Name, e: Entry)
    requires n !in sp && SendRightsIn(sp, t, port) == {}
    ensures SendRightsIn(sp[n := e], t, port) == if e.Rights? && e.port == port && e.sends > 0 then {InSpace(t, n)} else {}
  {
    assert forall m | m in sp :: sp[n := e][m] == sp[m] && InSpace(t, m) !in SendRightsIn(sp, t, port);
  }

  lemma FirstOnceIn(sp: Space, t: Task, port: Port, n: Name, e: Entry)
    requires n !in sp && SendOnceRightsIn(sp, t, port) == {}
    ensures SendOnceRightsIn(sp[n := e], t, port) == if e == SendOnce(port) then {InSpace(t, n)} else {}
  {
    assert forall m | m in sp :: sp[n := e][m] == sp[m] && InSpace(t, m) !in SendOnceRightsIn(sp, t, port);
  }

  lemma NoneCarried(queues: map<Port, seq<Message>>, port: Port)
    requires CarryBelow(queues, port)
    ensures Carrying(queues, CarriedSend(port)) == {} && Carrying(queues, CarriedSendOnce(port)) == {}
  {
  }

  /** A new queue where no message carried the right. */
  lemma NewEmptyQueue(queues: map<Port, seq<Message>>, p: Port, cargo: Cargo)
    requires p !in queues
    ensures Carrying(queues[p := []], cargo) == Carrying(queues, cargo)
  {
    assert forall q | q in queues :: queues[p := []][q] == queues[q];
  }

  lemma NewQueue(queues: map<Port, seq<Message>>, p: Port, message: Message, cargo: Cargo)
    requires p !in queues && Carrying(queues, cargo) == {}
    ensures Carrying(queues[p := [message]], cargo) == if message.cargo == cargo then {InMessage(p, 0)} else {}
  {
    var more := queues[p := [message]];
    assert forall q, i | q in queues && 0 <= i < |queues[q]| :: more[q] == queues[q] && InMessage(q, i) !in Carrying(queues, cargo);
  }
}
