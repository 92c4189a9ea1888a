/**
 What a reader of a result envelope finds under each key: the parts of the envelope read back by name,
 without regard to the order in which they were written.
 */
module EnvelopeReader {
  import opened JsonTree
  import opened JsonCalls
  import opened JsonWriter
  import opened Envelope

  /** Member `i` is the only one with a key. */
  ghost predicate Only(members: seq<Member>, key: string, i: nat) {
    i < |members| && members[i].key == key && forall j | 0 <= j < |members| :: members[j].key == key ==> j == i
  }

  /** The value under a key that stands exactly once. */
  ghost function Get(v: Json, key: string): Option<Json> {
    if v.Obj? && exists i: nat :: Only(v.members, key, i) then
      var i: nat :| Only(v.members, key, i);
      Some(v.members[i].value)
    else None
  }

  ghost predicate DistinctKeys(members: seq<Member>) {
    forall i, j | 0 <= i < j < |members| :: members[i].key != members[j].key
  }

  lemma GetAt(members: seq<Member>, i: nat)
    requires i < |members| && DistinctKeys(members)
    ensures Get(Obj(members), members[i].key) == Some(members[i].value)
  {
    assert Only(members, members[i].key, i);
  }

  // ---- values ---------------------------------------------------------------------------------------------------

  /** A string, empty for a null pointer. */
  ghost predicate IsText(f: Option<Json>, p: Pointer) {
    match p case NULL => f == Some(Str("")) case Chars(s) => f == Some(Str(s))
  }

  /** A string, or null for a null pointer. */
  ghost predicate IsTextOrNull(f: Option<Json>, p: Pointer) {
    match p case NULL => f == Some(Null) case Chars(s) => f == Some(Str(s))
  }

  /** A count, or null exactly for a negative one. */
  ghost predicate IsCount(f: Option<Json>, n: int) {
    if n < 0 then f == Some(Null) else f == Some(Int(n))
  }

  ghost predicate IsStatus(f: Option<Json>, s: Status) {
    && (f == Some(Str("pass")) <==> s == PASS)
    && (f == Some(Str("fail")) <==> s == FAIL)
    && (f == Some(Str("skip")) <==> s == SKIP)
    && (f == Some(Str("probe_failure")) <==> s == PROBE_FAILURE)
  }

  ghost predicate IsClass(f: Option<Json>, c: SemanticClass) {
    && (f == Some(Str("exact_contract")) <==> c == EXACT_CONTRACT)
    && (f == Some(Str("equivalent_contract")) <==> c == EQUIVALENT_CONTRACT)
    && (f == Some(Str("version_sensitive")) <==> c == VERSION_SENSITIVE)
    && (f == Some(Str("privilege_sensitive")) <==> c == PRIVILEGE_SENSITIVE)
    && (f == Some(Str("not_observable")) <==> c == NOT_OBSERVABLE)
    && (f == Some(Str("probe_failure")) <==> c == CLASS_PROBE_FAILURE)
    && (f == Some(Str("intentional_divergence")) <==> c == INTENTIONAL_DIVERGENCE)
  }

  // ---- parts ----------------------------------------------------------------------------------------------------

  ghost predicate ReadsDelta(v: Json, d: Delta) {
    && IsText(Get(v, "operation"), d.operation)
    && IsText(Get(v, "port_name"), d.portName)
    && IsText(Get(v, "right_type"), d.rightType)
    && IsCount(Get(v, "before_urefs"), d.beforeUrefs)
    && IsCount(Get(v, "after_urefs"), d.afterUrefs)
    && IsCount(Get(v, "entry_refs_before"), d.entryBefore)
    && IsCount(Get(v, "entry_refs_after"), d.entryAfter)
    && IsText(Get(v, "expected"), d.expected)
  }

  lemma DeltaKeys(d: Delta)
    ensures DistinctKeys(DeltaTree(d).members)
  {
    hide CountOrNull, Pointee;
    assert "operation"[0] != "port_name"[0];
  }

  lemma DeltaNames(d: Delta)
    ensures var v := DeltaTree(d);
            && IsText(Get(v, "operation"), d.operation) && IsText(Get(v, "port_name"), d.portName)
            && IsText(Get(v, "right_type"), d.rightType) && IsText(Get(v, "expected"), d.expected)
  {
    DeltaKeys(d);
    var ms := DeltaTree(d).members;
    hide DistinctKeys, Get, CountOrNull;
    GetAt(ms, 0);
    GetAt(ms, 1);
    GetAt(ms, 2);
    GetAt(ms, 7);
  }

  lemma DeltaCounts(d: Delta)
    ensures var v := DeltaTree(d);
            && IsCount(Get(v, "before_urefs"), d.beforeUrefs) && IsCount(Get(v, "after_urefs"), d.afterUrefs)
            && IsCount(Get(v, "entry_refs_before"), d.entryBefore) && IsCount(Get(v, "entry_refs_after"), d.entryAfter)
  {
    DeltaKeys(d);
    var ms := DeltaTree(d).members;
    hide DistinctKeys, Get, Pointee;
    GetAt(ms, 3);
    GetAt(ms, 4);
    GetAt(ms, 5);
    GetAt(ms, 6);
  }

  /** Every key of a written delta holds the argument it is named for. */
  lemma DeltaByKey(d: Delta)
    ensures ReadsDelta(DeltaTree(d), d)
  {
    hide DeltaTree, Get, IsText, IsCount;
    DeltaNames(d);
    DeltaCounts(d);
  }

  ghost predicate ReadsReturn(v: Json, r: Return) {
    && IsText(Get(v, "call"), r.call)
    && IsText(Get(v, "returned"), r.returned)
    && Get(v, "raw") == Some(Int(r.raw))
    && Get(v, "errno") == Some(if r.errno.Some? then Int(r.errno.value) else Null)
  }

  lemma ReturnByKey(r: Return)
    ensures ReadsReturn(ReturnTree(r), r)
  {
    var ms := ReturnTree(r).members;
    assert DistinctKeys(ms);
    hide DistinctKeys, Get;
    GetAt(ms, 0);
    GetAt(ms, 1);
    GetAt(ms, 2);
    GetAt(ms, 3);
  }

  ghost predicate ReadsCleanup(v: Json, returned: bool, notes: Pointer) {
    && Get(v, "returned_to_baseline") == Some(Bool(returned))
    && IsText(Get(v, "notes"), notes)
  }

  lemma CleanupByKey(returned: bool, notes: Pointer)
    ensures ReadsCleanup(CleanupMember(returned, notes).value, returned, notes)
  {
    var ms := CleanupMember(returned, notes).value.members;
    assert DistinctKeys(ms);
    hide DistinctKeys, Get;
    GetAt(ms, 0);
    GetAt(ms, 1);
  }

  ghost predicate ReadsCrossReference(v: Json, h: Header) {
    && IsTextOrNull(Get(v, "nextbsd_test_id"), h.nextbsdTestId)
    && IsTextOrNull(Get(v, "donor_equivalent_id"), h.donorId)
  }

  lemma CrossReferenceByKey(h: Header)
    ensures ReadsCrossReference(CrossReference(h), h)
  {
    var ms := CrossReference(h).members;
    assert DistinctKeys(ms);
    hide DistinctKeys, Get;
    GetAt(ms, 0);
    GetAt(ms, 1);
  }

  lemma StatusByText(s: Status)
    ensures IsStatus(Some(Str(StatusText(s))), s)
  {
    assert "pass"[0] != "fail"[0] && "pass"[0] != "skip"[0] && "fail"[0] != "skip"[0];
  }

  lemma ClassByText(c: SemanticClass)
    ensures IsClass(Some(Str(ClassText(c))), c)
  {
    assert "exact_contract"[0] != "not_observable"[0] && "equivalent_contract"[0] != "privilege_sensitive"[0];
  }
}
