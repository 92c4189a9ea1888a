/**
 What the send-once probe concludes from its observations: the child's exit code and the parent's
 ladder of checks, for arbitrary kernel results.
 */
module SendOnceVerdict {
  import opened Baseline
  import opened MachKernel
  import opened Envelope

  const DESCRIPTOR_ID: Word := 0x4f42_3233
  const VERIFY_ID: Word := 0x4f42_3234
  const SECOND_ID: Word := 0x4f42_3235

  /** What the child reports; counters of bytes and header bits are not looked at. */
  datatype ChildStatus = ChildStatus(
    cleanupOk: Word, cleanupDelta: Word, exitCode: Word,
    krBaselineBefore: Word, krGetBootstrap: Word, krAllocCargo: Word, krCargoType: Word, krExtract: Word,
    krType: Word, krRefs: Word, mrSend: Word, krTypeSent: Word, krRefsSent: Word, mrFirst: Word, mrSecond: Word,
    krCargoTypeAfter: Word, krDeallocateOnce: Word, krDestroyCargo: Word, krBaselineAfter: Word,
    cargoType: Word, typeOf: Word, typeSent: Word, cargoTypeAfter: Word, refs: Word, refsSent: Word,
    firstId: Word, secondId: Word)

  function Untried(): ChildStatus {
    ChildStatus(0, 0, 1, KERN_FAILURE, KERN_FAILURE, KERN_FAILURE, KERN_FAILURE, KERN_FAILURE,
                KERN_FAILURE, KERN_FAILURE, MACH_SEND_INVALID_DEST, KERN_FAILURE, KERN_FAILURE,
                MACH_RCV_INVALID_NAME, MACH_RCV_INVALID_NAME, KERN_FAILURE, KERN_FAILURE, KERN_FAILURE, KERN_FAILURE,
                0, 0, 0, 0, 0, 0, 0, 0)
  }

  /** The parent's record of the child before it reads anything; the exit code is -1. */
  function Unreported(): ChildStatus {
    ChildStatus(0, 0, 0xffff_ffff, 0, 0, 0, 0, 0, 0, 0, 0, 0, 0, 0, 0, 0, 0, 0, 0, 0, 0, 0, 0, 0, 0, 0, 0)
  }

  function ExitCode(st: ChildStatus, before: Snapshot, after: Snapshot): Word {
    if && !BlocksProbe(before)
       && st.krGetBootstrap == KERN_SUCCESS
       && st.krAllocCargo == KERN_SUCCESS
       && st.krCargoType == KERN_SUCCESS
       && st.krExtract == KERN_SUCCESS
       && st.krType == KERN_SUCCESS
       && st.mrSend == MACH_MSG_SUCCESS
       && st.mrFirst == MACH_MSG_SUCCESS
       && st.mrSecond == MACH_RCV_TIMED_OUT
       && st.krCargoTypeAfter == KERN_SUCCESS
       && st.krDestroyCargo == KERN_SUCCESS
       && !BlocksProbe(after)
       && st.cleanupOk != 0
    then 0 else st.exitCode
  }

  datatype Results = Results(
    before: Snapshot, after: Snapshot, cleanupOk: bool,
    pipeCreated: bool, krGetBootstrap: Word, krAllocService: Word, krInsertService: Word, krPublish: Word,
    forked: bool, krRestore: Word, mrReceive: Word, descriptors: Word, delivered: Name,
    krType: Word, typeOf: Word, krRefs: Word, refs: Word, mrFirst: Word,
    krTypeAfter: Word, typeAfter: Word, krRefsAfter: Word, refsAfter: Word, mrSecond: Word,
    child: ChildStatus, statusRead: bool, waited: bool,
    krDeallocate: Word, krDestroy: Word, krDrop: Word)

  predicate ZeroOrAbsent(kr: Word, refs: Word) {
    (kr == KERN_SUCCESS && refs == 0) || kr == KERN_INVALID_RIGHT || kr == KERN_INVALID_NAME
  }

  /** No send-once right can be seen any more: neither by its type nor by its references. */
  predicate Consumed(krType: Word, mask: Word, krRefs: Word, refs: Word) {
    (krType != KERN_SUCCESS || !HasSendOnce(mask)) && ZeroOrAbsent(krRefs, refs)
  }

  datatype Verdict = Verdict(status: Status, semantics: SemanticClass, notes: string)

  function Trouble(notes: string): Verdict {
    Verdict(PROBE_FAILURE, CLASS_PROBE_FAILURE, notes)
  }

  function Breach(notes: string): Verdict {
    Verdict(FAIL, EXACT_CONTRACT, notes)
  }

  /** The ladder: the first check that does not hold decides. */
  function Ladder(r: Results): Verdict {
    if BlocksProbe(r.before) then Trouble("initial mach_port_names failed")
    else if !r.pipeCreated then Trouble("pipe setup failed")
    else if r.krGetBootstrap != KERN_SUCCESS then Trouble("task_get_special_port bootstrap failed")
    else if r.krAllocService != KERN_SUCCESS then Trouble("mach_port_allocate service failed")
    else if r.krInsertService != KERN_SUCCESS then Trouble("mach_port_insert_right service failed")
    else if r.krPublish != KERN_SUCCESS then Trouble("task_set_special_port service failed")
    else if !r.forked then Trouble("fork failed")
    else if r.krRestore != KERN_SUCCESS then Trouble("task_set_special_port restore failed")
    else if r.mrReceive != MACH_MSG_SUCCESS || r.descriptors != 1 || r.delivered == MACH_PORT_NULL then
      Trouble("parent did not receive descriptor")
    else CargoRungs(r, r.child)
  }

  function CargoRungs(r: Results, c: ChildStatus): Verdict {
    if !(c.krCargoType == KERN_SUCCESS && c.cargoType == TYPE_RECEIVE) then
      Breach("child cargo type before send-once creation was not RECEIVE")
    else if c.krExtract != KERN_SUCCESS then Trouble("mach_port_extract_right MAKE_SEND_ONCE failed")
    else OnceRungs(r, c)
  }

  function OnceRungs(r: Results, c: ChildStatus): Verdict {
    if !(c.krType == KERN_SUCCESS && c.typeOf == TYPE_SEND_ONCE) then
      Breach("child send-once type before send was not SEND_ONCE")
    else if !(c.krRefs != KERN_SUCCESS || c.refs == 1) then
      Breach("child send-once refs before send were not one when observable")
    else SentRungs(r, c)
  }

  function SentRungs(r: Results, c: ChildStatus): Verdict {
    if c.mrSend != MACH_MSG_SUCCESS then Trouble("child descriptor mach_msg SEND failed")
    else if !Consumed(c.krTypeSent, c.typeSent, c.krRefsSent, c.refsSent) then
      Breach("descriptor MOVE_SEND_ONCE did not consume child send-once right")
    else ReceiverRungs(r, c)
  }

  function ReceiverRungs(r: Results, c: ChildStatus): Verdict {
    if !(r.krType == KERN_SUCCESS && HasSendOnce(r.typeOf)) then
      Breach("parent delivered descriptor was not a send-once right")
    else if !(r.krRefs != KERN_SUCCESS || r.refs == 1) then
      Breach("parent delivered send-once refs were not one when observable")
    else if !(r.mrFirst == MACH_MSG_SUCCESS && c.mrFirst == MACH_MSG_SUCCESS && c.firstId == VERIFY_ID) then
      Breach("parent delivered send-once right usability failed")
    else ReuseRungs(r, c)
  }

  function ReuseRungs(r: Results, c: ChildStatus): Verdict {
    if !Consumed(r.krTypeAfter, r.typeAfter, r.krRefsAfter, r.refsAfter) then
      Breach("parent delivered send-once right was not consumed after first use")
    else if r.mrSecond == MACH_MSG_SUCCESS then Breach("parent delivered send-once right was reusable")
    else if c.mrSecond != MACH_RCV_TIMED_OUT then Breach("child received more than one verification message")
    else CleanupRungs(r)
  }

  function CleanupRungs(r: Results): Verdict {
    if !r.statusRead || !r.waited then Trouble("child status or waitpid failed")
    else if !(r.child.exitCode == 0 && r.child.cleanupOk != 0) then Breach("child cleanup did not return to baseline")
    else if r.krDestroy != KERN_SUCCESS then Verdict(FAIL, CLASS_PROBE_FAILURE, "parent mach_port_destroy service failed")
    else if BlocksProbe(r.after) then Trouble("final mach_port_names failed")
    else if !r.cleanupOk then Breach("parent port namespace did not return to baseline")
    else Verdict(PASS, EXACT_CONTRACT, "")
  }

  // ---- what PASS says ----------------------------------------------------------------------------------------

  predicate SetUp(r: Results) {
    && r.pipeCreated && r.forked && r.statusRead && r.waited
    && r.krGetBootstrap == r.krAllocService == r.krInsertService == r.krPublish == r.krRestore == KERN_SUCCESS
    && r.mrReceive == MACH_MSG_SUCCESS && r.descriptors == 1 && r.delivered != MACH_PORT_NULL
  }

  /** A descriptor arrived in a working set-up. */
  predicate Delivered(r: Results) {
    && Known(r.before) && r.pipeCreated && r.forked
    && r.krGetBootstrap == r.krAllocService == r.krInsertService == r.krPublish == r.krRestore == KERN_SUCCESS
    && r.mrReceive == MACH_MSG_SUCCESS && r.descriptors == 1 && r.delivered != MACH_PORT_NULL
  }

  /** Neither the type nor the references show the right any more. */
  predicate Vanished(krType: Word, mask: Word, krRefs: Word, refs: Word) {
    (krType == KERN_SUCCESS ==> !HasSendOnce(mask)) && NoneLeft(krRefs, refs)
  }

  /** The child has its cargo port, without a send right. */
  predicate CargoSeen(c: ChildStatus) {
    c.krCargoType == KERN_SUCCESS && c.cargoType == TYPE_RECEIVE
  }

  /** The child has one send-once right, as far as it can see. */
  predicate OnceSeen(c: ChildStatus) {
    c.krType == KERN_SUCCESS && c.typeOf == TYPE_SEND_ONCE && (c.krRefs == KERN_SUCCESS ==> c.refs == 1)
  }

  /** The child made one send-once right and lost it to the message. */
  predicate SenderLost(c: ChildStatus) {
    && CargoSeen(c) && c.krExtract == KERN_SUCCESS && OnceSeen(c) && c.mrSend == MACH_MSG_SUCCESS
    && Vanished(c.krTypeSent, c.typeSent, c.krRefsSent, c.refsSent)
  }

  /** The child could not make or send the right, though all that it saw before was in order. */
  predicate Untested(c: ChildStatus) {
    CargoSeen(c) && (c.krExtract != KERN_SUCCESS || (OnceSeen(c) && c.mrSend != MACH_MSG_SUCCESS))
  }

  /** The parent got a send-once right that works. */
  predicate UsedOnce(r: Results) {
    && r.krType == KERN_SUCCESS && HasSendOnce(r.typeOf) && (r.krRefs == KERN_SUCCESS ==> r.refs == 1)
    && r.mrFirst == MACH_MSG_SUCCESS && r.child.mrFirst == MACH_MSG_SUCCESS && r.child.firstId == VERIFY_ID
  }

  /** After the first use it is gone: it cannot be used again, and no second message comes. */
  predicate UsedUp(r: Results) {
    && Vanished(r.krTypeAfter, r.typeAfter, r.krRefsAfter, r.refsAfter)
    && r.mrSecond != MACH_MSG_SUCCESS && r.child.mrSecond == MACH_RCV_TIMED_OUT
  }

  /** The parent could use the right once, and only once. */
  predicate UsableOnce(r: Results) {
    UsedOnce(r) && UsedUp(r)
  }

  predicate CleanedUp(r: Results) {
    && r.child.exitCode == 0 && r.child.cleanupOk != 0 && r.krDestroy == KERN_SUCCESS
    && Known(r.before) && Known(r.after) && r.cleanupOk
  }

  // ---- rung by rung --------------------------------------------------------------------------------------------

  predicate BlamesContract(v: Verdict) {
    v.status == FAIL && v.semantics == EXACT_CONTRACT
  }

  predicate BlamesProbe(v: Verdict) {
    v.status == PROBE_FAILURE && v.semantics == CLASS_PROBE_FAILURE
  }

  lemma VanishedIs(krType: Word, mask: Word, krRefs: Word, refs: Word)
    ensures Consumed(krType, mask, krRefs, refs) <==> Vanished(krType, mask, krRefs, refs)
  {
    hide HasSendOnce;
  }

  lemma FirstRungs(r: Results)
    ensures if Delivered(r) then Ladder(r) == CargoRungs(r, r.child) else BlamesProbe(Ladder(r))
  {
    hide CargoRungs;
  }

  lemma CargoDecides(r: Results)
    ensures if !CargoSeen(r.child) then BlamesContract(CargoRungs(r, r.child))
            else if r.child.krExtract != KERN_SUCCESS then BlamesProbe(CargoRungs(r, r.child))
            else CargoRungs(r, r.child) == OnceRungs(r, r.child)
  {
    hide OnceRungs;
  }

  lemma OnceDecides(r: Results)
    ensures if OnceSeen(r.child) then OnceRungs(r, r.child) == SentRungs(r, r.child) else BlamesContract(OnceRungs(r, r.child))
  {
    hide SentRungs;
  }

  lemma SentDecides(r: Results)
    ensures var c := r.child;
            if c.mrSend != MACH_MSG_SUCCESS then BlamesProbe(SentRungs(r, c))
            else if Vanished(c.krTypeSent, c.typeSent, c.krRefsSent, c.refsSent) then SentRungs(r, c) == ReceiverRungs(r, c)
            else BlamesContract(SentRungs(r, c))
  {
    VanishedIs(r.child.krTypeSent, r.child.typeSent, r.child.krRefsSent, r.child.refsSent);
    hide ReceiverRungs, Consumed, Vanished;
  }

  lemma UseDecides(r: Results)
    ensures if UsedOnce(r) then ReceiverRungs(r, r.child) == ReuseRungs(r, r.child) else BlamesContract(ReceiverRungs(r, r.child))
  {
    hide ReuseRungs, HasSendOnce;
  }

  lemma ReuseDecides(r: Results)
    ensures if UsedUp(r) then ReuseRungs(r, r.child) == CleanupRungs(r) else BlamesContract(ReuseRungs(r, r.child))
  {
    VanishedIs(r.krTypeAfter, r.typeAfter, r.krRefsAfter, r.refsAfter);
    hide CleanupRungs, Consumed, Vanished;
  }

  /** The rungs on the contract decide exactly if it was not observed, and against the probe exactly if it was not tested. */
  lemma Observed(r: Results)
    ensures if SenderLost(r.child) && UsableOnce(r) then CargoRungs(r, r.child) == CleanupRungs(r)
            else if Untested(r.child) then BlamesProbe(CargoRungs(r, r.child))
            else BlamesContract(CargoRungs(r, r.child))
    ensures SenderLost(r.child) ==> !Untested(r.child)
  {
    CargoDecides(r);
    OnceDecides(r);
    SentDecides(r);
    UseDecides(r);
    ReuseDecides(r);
    hide CargoRungs, OnceRungs, SentRungs, ReceiverRungs, ReuseRungs, CleanupRungs, CargoSeen, OnceSeen, Vanished, UsedOnce, UsedUp;
  }

  // ---- what every verdict says ---------------------------------------------------------------------------------

  /** The sender lost its right, and the receiver could use it once. */
  predicate Transferred(r: Results) {
    SenderLost(r.child) && UsableOnce(r)
  }

  /** The child's report was read, its end seen, and it says that all went well. */
  predicate ChildDone(r: Results) {
    r.statusRead && r.waited && r.child.exitCode == 0 && r.child.cleanupOk != 0
  }

  /** Nothing can be said: the set-up or the child's own calls failed, or the surroundings of an observed contract. */
  predicate Inconclusive(r: Results) {
    || !Delivered(r)
    || Untested(r.child)
    || (Transferred(r) && !(r.statusRead && r.waited))
    || (Transferred(r) && ChildDone(r) && r.krDestroy == KERN_SUCCESS && !Known(r.after))
  }

  /** The contract is broken: in the transfer, by the child's cleanup, or by names left in the parent. */
  predicate Broken(r: Results) {
    Delivered(r) && !Untested(r.child) &&
    (|| !Transferred(r)
     || (r.statusRead && r.waited && !ChildDone(r))
     || (ChildDone(r) && r.krDestroy == KERN_SUCCESS && Known(r.after) && !r.cleanupOk))
  }

  /** The contract was observed, but the parent could not give its service port back. */
  predicate Stuck(r: Results) {
    Delivered(r) && Transferred(r) && ChildDone(r) && r.krDestroy != KERN_SUCCESS
  }

  lemma LastRungs(r: Results)
    requires Delivered(r) && Transferred(r) && !Untested(r.child)
    ensures var v := CleanupRungs(r);
            && (v.status == PROBE_FAILURE && v.semantics == CLASS_PROBE_FAILURE <==> Inconclusive(r))
            && (v.status == FAIL && v.semantics == EXACT_CONTRACT <==> Broken(r))
            && (v.status == FAIL && v.semantics == CLASS_PROBE_FAILURE <==> Stuck(r))
            && (v.status == PASS && v.semantics == EXACT_CONTRACT <==> ChildDone(r) && CleanedUp(r))
  {
    hide Transferred, Untested;
  }

  /**
   The verdict of any results, by what was observed: exactly one of four pairs of status and class, each
   if and only if its condition holds.
   */
  lemma VerdictByObservation(r: Results)
    ensures var v := Ladder(r);
            && (v.status == PROBE_FAILURE && v.semantics == CLASS_PROBE_FAILURE <==> Inconclusive(r))
            && (v.status == FAIL && v.semantics == EXACT_CONTRACT <==> Broken(r))
            && (v.status == FAIL && v.semantics == CLASS_PROBE_FAILURE <==> Stuck(r))
            && (v.status == PASS && v.semantics == EXACT_CONTRACT <==> Delivered(r) && Transferred(r) && ChildDone(r) && CleanedUp(r))
    ensures Inconclusive(r) || Broken(r) || Stuck(r) || (Delivered(r) && Transferred(r) && ChildDone(r) && CleanedUp(r))
  {
    FirstRungs(r);
    if Delivered(r) {
      Observed(r);
      if Transferred(r) {
        LastRungs(r);
      }
    }
    hide Ladder, CargoRungs, CleanupRungs, SenderLost, UsableOnce, Untested, Delivered;
  }

  /** PASS says that the set-up worked and the send-once contract was observed, for any results at all. */
  lemma PassIsContract(r: Results)
    ensures Ladder(r).status == PASS <==> SetUp(r) && SenderLost(r.child) && UsableOnce(r) && CleanedUp(r)
  {
    VerdictByObservation(r);
    hide Ladder, SenderLost, UsableOnce, Untested;
  }

  // ---- what the child's exit code says -------------------------------------------------------------------------

  /** Every call of the child that its exit code depends on went as it should; the second receive times out. */
  predicate ChildWorked(c: ChildStatus) {
    && c.krGetBootstrap == c.krAllocCargo == c.krCargoType == c.krExtract == c.krType == KERN_SUCCESS
    && c.krCargoTypeAfter == c.krDestroyCargo == KERN_SUCCESS
    && c.mrSend == c.mrFirst == MACH_MSG_SUCCESS && c.mrSecond == MACH_RCV_TIMED_OUT
  }

  /** The child reports zero exactly if its calls worked and its namespace is unchanged. */
  lemma ExitSaysUnchanged(c: ChildStatus, before: Snapshot, after: Snapshot)
    requires c.exitCode == 1 && (c.cleanupOk != 0 <==> Matches(before, after))
    requires Genuine(before) && Genuine(after)
    ensures ExitCode(c, before, after) == if ChildWorked(c) && Unchanged(before, after) then 0 else 1
  {
    hide Matches, Unchanged, BlocksProbe, Genuine;
    MatchMeansUnchanged(before, after);
  }

  /** The child tells the truth about its baseline, and its exit code is the one it computed. */
  ghost predicate Truthful(c: ChildStatus, before: Snapshot, after: Snapshot) {
    && (c.cleanupOk != 0 <==> Matches(before, after))
    && exists st: ChildStatus :: st.exitCode == 1 && c == st.(exitCode := ExitCode(st, before, after))
  }

  /** PASS with a truthful child means that the child's calls worked and both namespaces are unchanged. */
  lemma PassMeansUnchanged(r: Results, before: Snapshot, after: Snapshot)
    requires Ladder(r).status == PASS
    requires r.cleanupOk == Matches(r.before, r.after) && Truthful(r.child, before, after)
    requires Genuine(r.before) && Genuine(r.after) && Genuine(before) && Genuine(after)
    ensures Unchanged(r.before, r.after) && Unchanged(before, after) && ChildWorked(r.child)
  {
    hide Ladder, Matches, Unchanged, Genuine;
    PassIsContract(r);
    MatchMeansUnchanged(r.before, r.after);
    var st: ChildStatus :| st.exitCode == 1 && r.child == st.(exitCode := ExitCode(st, before, after));
    hide ExitCode;
    ExitSaysUnchanged(st, before, after);
  }
}
