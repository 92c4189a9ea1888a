/**
 What the MOVE_SEND probe concludes from its observations: the child's exit code, and the ladder of
 checks after which the parent says PASS, FAIL or PROBE_FAILURE. Kernel results are arbitrary here.
 */
module MoveSendVerdict {
  import opened Baseline
  import opened MachKernel
  import opened Envelope

  const DESCRIPTOR_ID: Word := 0x4f42_3232
  const VERIFY_ID: Word := 0x4f42_3233
  const STATUS_VERSION: Word := 1

  /** Header bits and sizes the child notes; they are printed but not judged. */
  datatype Headers = Headers(sentBits: Word, receivedBits: Word, remote: Word, local: Word, size: Word)

  function NoHeaders(): Headers {
    Headers(0, 0, 0, 0, 0)
  }

  /** What the child reports through the pipe. */
  datatype ChildStatus = ChildStatus(
    version: Word, cleanupOk: Word, cleanupDelta: Word, exitCode: Word,
    krBaselineBefore: Word, krGetBootstrap: Word, krAllocCargo: Word, krInsertSend: Word,
    krTypeBefore: Word, krRefsBefore: Word, mrSend: Word, krTypeAfter: Word, krRefsAfter: Word,
    mrReceive: Word, krTypeVerified: Word, krRefsVerified: Word, krDestroyCargo: Word, krBaselineAfter: Word,
    typeBefore: Word, typeAfter: Word, typeVerified: Word,
    refsBefore: Word, refsAfter: Word, refsVerified: Word, verifyId: Word, headers: Headers)

  /** The child's record before it does anything. */
  function Untried(): ChildStatus {
    ChildStatus(STATUS_VERSION, 0, 0, 1,
                KERN_FAILURE, KERN_FAILURE, KERN_FAILURE, KERN_FAILURE,
                KERN_FAILURE, KERN_FAILURE, MACH_SEND_INVALID_DEST, KERN_FAILURE, KERN_FAILURE,
                MACH_RCV_INVALID_NAME, KERN_FAILURE, KERN_FAILURE, KERN_FAILURE, KERN_FAILURE,
                0, 0, 0, 0, 0, 0, 0, NoHeaders())
  }

  /** The parent's record of the child before it reads anything; the exit code is -1. */
  function Unreported(): ChildStatus {
    ChildStatus(STATUS_VERSION, 0, 0, 0xffff_ffff,
                0, 0, 0, 0, 0, 0, 0, 0, 0, 0, 0, 0, 0, 0, 0, 0, 0, 0, 0, 0, 0, NoHeaders())
  }

  /** The exit code the child reports and exits with. */
  function ExitCode(st: ChildStatus, before: Snapshot, after: Snapshot): Word {
    if && !BlocksProbe(before)
       && st.krGetBootstrap == KERN_SUCCESS
       && st.krAllocCargo == KERN_SUCCESS
       && st.krInsertSend == KERN_SUCCESS
       && st.krTypeBefore == KERN_SUCCESS
       && st.krRefsBefore == KERN_SUCCESS
       && st.mrSend == MACH_MSG_SUCCESS
       && st.krTypeAfter == KERN_SUCCESS
       && st.mrReceive == MACH_MSG_SUCCESS
       && st.krTypeVerified == KERN_SUCCESS
       && st.krDestroyCargo == KERN_SUCCESS
       && !BlocksProbe(after)
       && st.cleanupOk != 0
    then 0 else st.exitCode
  }

  /** What the parent knows when it decides. */
  datatype Results = Results(
    before: Snapshot, after: Snapshot, cleanupOk: bool,
    pipeCreated: bool, krGetBootstrap: Word, krAllocService: Word, krInsertService: Word, krPublish: Word,
    forked: bool, krRestore: Word, mrReceive: Word, descriptors: Word, delivered: Name,
    krType: Word, typeOf: Word, krRefs: Word, refs: Word, mrVerify: Word,
    child: ChildStatus, statusRead: bool, waited: bool,
    krDeallocate: Word, krDestroy: Word, krDrop: Word)

  predicate ZeroOrAbsent(kr: Word, refs: Word) {
    (kr == KERN_SUCCESS && refs == 0) || kr == KERN_INVALID_RIGHT || kr == KERN_INVALID_NAME
  }

  predicate ReceivedDescriptor(r: Results) {
    r.mrReceive == MACH_MSG_SUCCESS && r.descriptors == 1 && r.delivered != MACH_PORT_NULL
  }

  predicate RefsBeforeExact(c: ChildStatus) {
    c.krRefsBefore == KERN_SUCCESS && c.refsBefore == 1
  }

  predicate TypeLostAfterSend(c: ChildStatus) {
    c.krTypeBefore == KERN_SUCCESS && c.krTypeAfter == KERN_SUCCESS && c.typeBefore == TYPE_SEND_RECEIVE
    && !HasSend(c.typeAfter)
  }

  predicate TypeLostAfterVerify(c: ChildStatus) {
    c.krTypeBefore == KERN_SUCCESS && c.krTypeVerified == KERN_SUCCESS && !HasSend(c.typeVerified)
  }

  predicate DeliveredSendRight(r: Results) {
    r.krType == KERN_SUCCESS && HasSend(r.typeOf) && r.krRefs == KERN_SUCCESS && r.refs >= 1
  }

  predicate Usable(r: Results) {
    r.mrVerify == MACH_MSG_SUCCESS && r.child.mrReceive == MACH_MSG_SUCCESS && r.child.verifyId == VERIFY_ID
  }

  predicate ChildClean(r: Results) {
    r.statusRead && r.child.exitCode == 0 && r.child.cleanupOk != 0
  }

  datatype Verdict = Verdict(status: Status, semantics: SemanticClass, notes: string)

  function Trouble(notes: string): Verdict {
    Verdict(PROBE_FAILURE, CLASS_PROBE_FAILURE, notes)
  }

  function Breach(notes: string): Verdict {
    Verdict(FAIL, EXACT_CONTRACT, notes)
  }

  /** The ladder: the first check that does not hold decides. */
  function Ladder(r: Results): Verdict {
    if BlocksProbe(r.before) then Trouble("initial mach_port_names failed")
    else if !r.pipeCreated then Trouble("pipe setup failed")
    else if r.krGetBootstrap != KERN_SUCCESS then Trouble("task_get_special_port bootstrap failed")
    else if r.krAllocService != KERN_SUCCESS then Trouble("mach_port_allocate service failed")
    else if r.krInsertService != KERN_SUCCESS then Trouble("mach_port_insert_right service failed")
    else if r.krPublish != KERN_SUCCESS then Trouble("task_set_special_port service failed")
    else if !r.forked then Trouble("fork failed")
    else if r.krRestore != KERN_SUCCESS then Trouble("task_set_special_port restore failed")
    else if !ReceivedDescriptor(r) then Trouble("parent did not receive descriptor")
    else ContractRungs(r, r.child)
  }

  function ContractRungs(r: Results, c: ChildStatus): Verdict {
    if c.krTypeBefore != KERN_SUCCESS || c.typeBefore != TYPE_SEND_RECEIVE then
      Breach("child cargo type before send was not SEND_RECEIVE")
    else if !RefsBeforeExact(c) then Breach("child cargo send refs before MOVE_SEND were not exactly one")
    else SentRungs(r, c)
  }

  function SentRungs(r: Results, c: ChildStatus): Verdict {
    if !TypeLostAfterSend(c) then Breach("descriptor MOVE_SEND did not remove the child cargo send type")
    else if !(RefsBeforeExact(c) && ZeroOrAbsent(c.krRefsAfter, c.refsAfter)) then
      Breach("descriptor MOVE_SEND did not consume child cargo send urefs")
    else UseRungs(r, c)
  }

  function UseRungs(r: Results, c: ChildStatus): Verdict {
    if !DeliveredSendRight(r) then Breach("parent delivered descriptor was not an observable send right")
    else if !Usable(r) then Breach("parent delivered send right usability failed")
    else VerifiedRungs(r, c)
  }

  function VerifiedRungs(r: Results, c: ChildStatus): Verdict {
    if !TypeLostAfterVerify(c) then Breach("child cargo type regained a send right after verification")
    else if !(RefsBeforeExact(c) && ZeroOrAbsent(c.krRefsVerified, c.refsVerified)) then
      Breach("child cargo send refs were not consumed after verification")
    else CleanupRungs(r)
  }

  function CleanupRungs(r: Results): Verdict {
    if !r.statusRead || !r.waited then Trouble("child status or waitpid failed")
    else if !ChildClean(r) then Breach("child cleanup did not return to baseline")
    else if r.krDeallocate != KERN_SUCCESS then
      Verdict(FAIL, CLASS_PROBE_FAILURE, "parent mach_port_deallocate delivered failed")
    else if r.krDestroy != KERN_SUCCESS then Verdict(FAIL, CLASS_PROBE_FAILURE, "parent mach_port_destroy service failed")
    else if BlocksProbe(r.after) then Trouble("final mach_port_names failed")
    else if !r.cleanupOk then Breach("parent port namespace did not return to baseline")
    else Verdict(PASS, EXACT_CONTRACT, "")
  }

  // ---- what PASS says ----------------------------------------------------------------------------------------

  /** The observation could be made. */
  predicate SetUp(r: Results) {
    && r.pipeCreated && r.forked && r.statusRead && r.waited
    && r.krGetBootstrap == r.krAllocService == r.krInsertService == r.krPublish == r.krRestore == KERN_SUCCESS
    && r.mrReceive == MACH_MSG_SUCCESS && r.descriptors == 1 && r.delivered != MACH_PORT_NULL
  }

  /** The sender's send references went from one to zero or absent, and stayed there; so did its type. */
  predicate SenderLost(c: ChildStatus) {
    && c.krTypeBefore == c.krTypeAfter == c.krTypeVerified == c.krRefsBefore == KERN_SUCCESS
    && c.typeBefore == TYPE_SEND_RECEIVE && !HasSend(c.typeAfter) && !HasSend(c.typeVerified)
    && c.refsBefore == 1
    && NoneLeft(c.krRefsAfter, c.refsAfter) && NoneLeft(c.krRefsVerified, c.refsVerified)
  }

  /** The receiver got a send right that works. */
  predicate ReceiverGained(r: Results) {
    && r.krType == r.krRefs == KERN_SUCCESS && HasSend(r.typeOf) && r.refs >= 1
    && r.mrVerify == MACH_MSG_SUCCESS
    && r.child.mrReceive == MACH_MSG_SUCCESS && r.child.verifyId == VERIFY_ID
  }

  /** Both tasks cleaned up. */
  predicate CleanedUp(r: Results) {
    && r.child.exitCode == 0 && r.child.cleanupOk != 0
    && r.krDeallocate == r.krDestroy == KERN_SUCCESS
    && Known(r.before) && Known(r.after) && r.cleanupOk
  }

  lemma PassCleansUp(r: Results)
    ensures CleanupRungs(r).status == PASS <==>
            (&& r.statusRead && r.waited && r.child.exitCode == 0 && r.child.cleanupOk != 0
             && r.krDeallocate == r.krDestroy == KERN_SUCCESS && Known(r.after) && r.cleanupOk)
  {
  }

  /** The sender starts with one send reference. */
  predicate OneBefore(c: ChildStatus) {
    && c.krTypeBefore == c.krRefsBefore == KERN_SUCCESS
    && c.typeBefore == TYPE_SEND_RECEIVE && c.refsBefore == 1
  }

  /** The message took it. */
  predicate Taken(c: ChildStatus) {
    c.krTypeAfter == KERN_SUCCESS && !HasSend(c.typeAfter) && NoneLeft(c.krRefsAfter, c.refsAfter)
  }

  /** It did not come back. */
  predicate StaysLost(c: ChildStatus) {
    c.krTypeVerified == KERN_SUCCESS && !HasSend(c.typeVerified) && NoneLeft(c.krRefsVerified, c.refsVerified)
  }

  lemma LostForGood(c: ChildStatus)
    ensures SenderLost(c) <==> OneBefore(c) && Taken(c) && StaysLost(c)
  {
    hide HasSend, NoneLeft;
  }

  predicate BlamesContract(v: Verdict) {
    v.status == FAIL && v.semantics == EXACT_CONTRACT
  }

  lemma NoneLeftIs(kr: Word, refs: Word)
    ensures ZeroOrAbsent(kr, refs) <==> NoneLeft(kr, refs)
  {
  }

  lemma BeforeDecides(r: Results)
    ensures if OneBefore(r.child) then ContractRungs(r, r.child) == SentRungs(r, r.child)
            else BlamesContract(ContractRungs(r, r.child))
  {
    hide SentRungs;
  }

  lemma SentDecides(r: Results)
    requires OneBefore(r.child)
    ensures if Taken(r.child) then SentRungs(r, r.child) == UseRungs(r, r.child) else BlamesContract(SentRungs(r, r.child))
  {
    NoneLeftIs(r.child.krRefsAfter, r.child.refsAfter);
    hide UseRungs, HasSend, ZeroOrAbsent, NoneLeft;
  }

  lemma UseDecides(r: Results)
    ensures if ReceiverGained(r) then UseRungs(r, r.child) == VerifiedRungs(r, r.child) else BlamesContract(UseRungs(r, r.child))
  {
    hide VerifiedRungs, HasSend;
  }

  lemma VerifiedDecides(r: Results)
    requires OneBefore(r.child)
    ensures if StaysLost(r.child) then VerifiedRungs(r, r.child) == CleanupRungs(r) else BlamesContract(VerifiedRungs(r, r.child))
  {
    NoneLeftIs(r.child.krRefsVerified, r.child.refsVerified);
    hide CleanupRungs, HasSend, ZeroOrAbsent, NoneLeft;
  }

  /** The rungs on the contract decide exactly if it was not observed. */
  lemma Observed(r: Results)
    ensures if SenderLost(r.child) && ReceiverGained(r) then ContractRungs(r, r.child) == CleanupRungs(r)
            else BlamesContract(ContractRungs(r, r.child))
  {
    hide *;
    LostForGood(r.child);
    BeforeDecides(r);
    if OneBefore(r.child) {
      SentDecides(r);
      UseDecides(r);
      VerifiedDecides(r);
    }
  }

  /** PASS says that the set-up worked and the MOVE_SEND contract was observed, for any results at all. */
  lemma PassIsContract(r: Results)
    ensures Ladder(r).status == PASS <==> SetUp(r) && SenderLost(r.child) && ReceiverGained(r) && CleanedUp(r)
  {
    hide CleanupRungs, ContractRungs, SenderLost, ReceiverGained;
    PassCleansUp(r);
    Observed(r);
  }

  /** A descriptor arrived in a working set-up. */
  predicate Delivered(r: Results) {
    && Known(r.before) && r.pipeCreated && r.forked
    && r.krGetBootstrap == r.krAllocService == r.krInsertService == r.krPublish == r.krRestore == KERN_SUCCESS
    && r.mrReceive == MACH_MSG_SUCCESS && r.descriptors == 1 && r.delivered != MACH_PORT_NULL
  }

  lemma FirstRungs(r: Results)
    ensures if Delivered(r) then Ladder(r) == ContractRungs(r, r.child)
            else Ladder(r).status == PROBE_FAILURE && Ladder(r).semantics == CLASS_PROBE_FAILURE
  {
    hide ContractRungs;
  }

  // ---- what every verdict says -------------------------------------------------------------------------------

  /** The sender lost its right for good, and the receiver can use it. */
  predicate Transferred(r: Results) {
    SenderLost(r.child) && ReceiverGained(r)
  }

  /** The child's report was read, its end seen, and it says that all went well. */
  predicate ChildDone(r: Results) {
    r.statusRead && r.waited && r.child.exitCode == 0 && r.child.cleanupOk != 0
  }

  /** Nothing can be said: the set-up failed, or the contract was observed but not all of its surroundings. */
  predicate Inconclusive(r: Results) {
    || !Delivered(r)
    || (Transferred(r) && !(r.statusRead && r.waited))
    || (Transferred(r) && ChildDone(r) && r.krDeallocate == r.krDestroy == KERN_SUCCESS && !Known(r.after))
  }

  /** The contract is broken: in the transfer, by the child's cleanup, or by names left in the parent. */
  predicate Broken(r: Results) {
    Delivered(r) &&
    (|| !Transferred(r)
     || (r.statusRead && r.waited && !ChildDone(r))
     || (ChildDone(r) && r.krDeallocate == r.krDestroy == KERN_SUCCESS && Known(r.after) && !r.cleanupOk))
  }

  /** The contract was observed, but the parent could not give its names back. */
  predicate Stuck(r: Results) {
    Delivered(r) && Transferred(r) && ChildDone(r) && !(r.krDeallocate == r.krDestroy == KERN_SUCCESS)
  }

  lemma LastRungs(r: Results)
    requires Delivered(r) && Transferred(r)
    ensures var v := CleanupRungs(r);
            && (v.status == PROBE_FAILURE && v.semantics == CLASS_PROBE_FAILURE <==> Inconclusive(r))
            && (v.status == FAIL && v.semantics == EXACT_CONTRACT <==> Broken(r))
            && (v.status == FAIL && v.semantics == CLASS_PROBE_FAILURE <==> Stuck(r))
            && (v.status == PASS && v.semantics == EXACT_CONTRACT <==> ChildDone(r) && CleanedUp(r))
  {
    hide Transferred;
  }

  /**
   The verdict of any results, by what was observed: exactly one of four pairs of status and class, each
   if and only if its condition holds.
   */
  lemma VerdictByObservation(r: Results)
    ensures var v := Ladder(r);
            && (v.status == PROBE_FAILURE && v.semantics == CLASS_PROBE_FAILURE <==> Inconclusive(r))
            && (v.status == FAIL && v.semantics == EXACT_CONTRACT <==> Broken(r))
            && (v.status == FAIL && v.semantics == CLASS_PROBE_FAILURE <==> Stuck(r))
            && (v.status == PASS && v.semantics == EXACT_CONTRACT <==> Delivered(r) && Transferred(r) && ChildDone(r) && CleanedUp(r))
    ensures Inconclusive(r) || Broken(r) || Stuck(r) || (Delivered(r) && Transferred(r) && ChildDone(r) && CleanedUp(r))
  {
    FirstRungs(r);
    if Delivered(r) {
      Observed(r);
      if Transferred(r) {
        LastRungs(r);
      }
    }
    hide Ladder, ContractRungs, CleanupRungs, SenderLost, ReceiverGained, Delivered;
  }

  /** In particular FAIL is only said when a descriptor arrived in a working set-up. */
  lemma BreachNeedsDelivery(r: Results)
    ensures Ladder(r).status == FAIL ==> Delivered(r)
  {
    hide Ladder, Delivered, ContractRungs;
    FirstRungs(r);
  }

  lemma UnreadCleanup(r: Results)
    requires !r.statusRead
    ensures CleanupRungs(r) == Trouble("child status or waitpid failed")
  {
  }

  /**
   With an unread status the trouble is only named when what is in the record, read in part or not at
   all, shows the contract observed in full; otherwise a breach of the contract is declared, if a
   descriptor arrived.
   */
  lemma UnreadVerdict(r: Results)
    requires !r.statusRead
    ensures Delivered(r) ==>
              if SenderLost(r.child) && ReceiverGained(r) then Ladder(r) == Trouble("child status or waitpid failed")
              else Ladder(r).status == FAIL
    ensures Ladder(r).status == FAIL <==> Delivered(r) && !(SenderLost(r.child) && ReceiverGained(r))
    ensures Ladder(r).status != PASS
  {
    hide Ladder, Delivered, ContractRungs, CleanupRungs, SenderLost, ReceiverGained;
    FirstRungs(r);
    Observed(r);
    UnreadCleanup(r);
  }

  /** The rung for an unread status decides exactly then. */
  lemma UnreadRungReached(r: Results)
    requires !r.statusRead
    ensures Ladder(r) == Trouble("child status or waitpid failed") <==> Delivered(r) && SenderLost(r.child) && ReceiverGained(r)
  {
    hide Ladder, Delivered, ContractRungs, CleanupRungs, SenderLost, ReceiverGained;
    FirstRungs(r);
    Observed(r);
    UnreadCleanup(r);
    if !Delivered(r) {
      OtherTrouble(r);
    }
  }

  lemma OtherTrouble(r: Results)
    requires !Delivered(r)
    ensures Ladder(r) != Trouble("child status or waitpid failed")
  {
    hide ContractRungs;
    assert |"child status or waitpid failed"| == 30;
  }

  /** Nothing read at all is such a case. */
  lemma UnreadStatusIsABreach(r: Results)
    requires r.child == Unreported()
    ensures Ladder(r).status == FAIL <==> Delivered(r)
    ensures Delivered(r) ==> Ladder(r) == Breach("child cargo type before send was not SEND_RECEIVE")
    ensures Ladder(r).status != PASS
  {
    assert ContractRungs(r, r.child) == Breach("child cargo type before send was not SEND_RECEIVE");
    hide ContractRungs, Ladder, Delivered;
    FirstRungs(r);
  }

  // ---- what the child's exit code says -------------------------------------------------------------------------

  /** Every call of the child that its exit code depends on worked. */
  predicate ChildWorked(c: ChildStatus) {
    && c.krGetBootstrap == c.krAllocCargo == c.krInsertSend == KERN_SUCCESS
    && c.krTypeBefore == c.krRefsBefore == c.krTypeAfter == c.krTypeVerified == c.krDestroyCargo == KERN_SUCCESS
    && c.mrSend == c.mrReceive == MACH_MSG_SUCCESS
  }

  /** The child reports zero exactly if its calls worked and its namespace is unchanged. */
  lemma ExitSaysUnchanged(c: ChildStatus, before: Snapshot, after: Snapshot)
    requires c.exitCode == 1 && (c.cleanupOk != 0 <==> Matches(before, after))
    requires Genuine(before) && Genuine(after)
    ensures ExitCode(c, before, after) == if ChildWorked(c) && Unchanged(before, after) then 0 else 1
  {
    hide Matches, Unchanged, BlocksProbe, Genuine;
    MatchMeansUnchanged(before, after);
  }

  /** The child tells the truth about its baseline, and its exit code is the one it computed. */
  ghost predicate Truthful(c: ChildStatus, before: Snapshot, after: Snapshot) {
    && (c.cleanupOk != 0 <==> Matches(before, after))
    && exists st: ChildStatus :: st.exitCode == 1 && c == st.(exitCode := ExitCode(st, before, after))
  }

  /**
   PASS means more than the checks: if the child was truthful and kernels list distinct entries, every
   call of the child worked and both tasks' namespaces are unchanged, never known only half.
   */
  lemma PassMeansUnchanged(r: Results, before: Snapshot, after: Snapshot)
    requires Ladder(r).status == PASS
    requires r.cleanupOk == Matches(r.before, r.after) && Truthful(r.child, before, after)
    requires Genuine(r.before) && Genuine(r.after) && Genuine(before) && Genuine(after)
    ensures Unchanged(r.before, r.after) && Unchanged(before, after) && ChildWorked(r.child)
  {
    hide Ladder, Matches, Unchanged, Genuine;
    PassIsContract(r);
    MatchMeansUnchanged(r.before, r.after);
    var st: ChildStatus :| st.exitCode == 1 && r.child == st.(exitCode := ExitCode(st, before, after));
    hide ExitCode;
    ExitSaysUnchanged(st, before, after);
  }
}
