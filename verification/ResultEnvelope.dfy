/** A probe's whole result, from the opening brace to the final line end, and what a reader gets from its text. */
module ResultEnvelope {
  import opened JsonTree
  import opened JsonParser
  import opened JsonRoundTrip
  import opened JsonCalls
  import opened JsonContext
  import opened JsonWriter
  import opened Envelope
  import opened EnvelopeReader

  datatype Result = Result(header: Header, path: Pointer, file: Option<string>, calls: seq<Return>,
                           deltas: seq<Delta>, returned: bool, cleanupNotes: Pointer, notes: Pointer)

  function ReturnTrees(rs: seq<Return>): (ts: seq<Json>)
    ensures |ts| == |rs| && forall i | 0 <= i < |rs| :: ts[i] == ReturnTree(rs[i])
  {
    if rs == [] then [] else ReturnTrees(rs[..|rs| - 1]) + [ReturnTree(rs[|rs| - 1])]
  }

  function DeltaTrees(ds: seq<Delta>): (ts: seq<Json>)
    ensures |ts| == |ds| && forall i | 0 <= i < |ds| :: ts[i] == DeltaTree(ds[i])
  {
    if ds == [] then [] else DeltaTrees(ds[..|ds| - 1]) + [DeltaTree(ds[|ds| - 1])]
  }

  /** The environment comes from a file that is named and could be opened. */
  predicate HasFile(r: Result) {
    r.path.Chars? && r.path.s != "" && r.file.Some?
  }

  ghost predicate ReadsHeader(doc: Json, h: Header) {
    && Get(doc, "schema") == Some(Str("nx-r64z.macos-oracle.v1"))
    && IsText(Get(doc, "agent"), h.agent)
    && IsText(Get(doc, "test_id"), h.testId)
    && Get(doc, "cross_reference").Some? && ReadsCrossReference(Get(doc, "cross_reference").value, h)
    && IsStatus(Get(doc, "status"), h.status)
    && IsClass(Get(doc, "semantic_class"), h.semanticClass)
  }

  ghost predicate ReadsReturns(f: Option<Json>, calls: seq<Return>) {
    && f.Some? && f.value.Arr? && |f.value.items| == |calls|
    && forall i | 0 <= i < |calls| :: ReadsReturn(f.value.items[i], calls[i])
  }

  ghost predicate ReadsDeltas(f: Option<Json>, deltas: seq<Delta>) {
    && f.Some? && f.value.Arr? && |f.value.items| == |deltas|
    && forall i | 0 <= i < |deltas| :: ReadsDelta(f.value.items[i], deltas[i])
  }

  ghost predicate ReadsEnvironment(f: Option<Json>, r: Result) {
    f.Some? && if HasFile(r) then Denotes(r.file.value, f.value) else f.value == FallbackEnvironment()
  }

  /** Under each key of a document stands what the result has for it. */
  ghost predicate Reads(doc: Json, r: Result) {
    && ReadsHeader(doc, r.header)
    && ReadsEnvironment(Get(doc, "environment"), r)
    && Get(doc, "message") == Some(EmptyMessage())
    && ReadsReturns(Get(doc, "returns"), r.calls)
    && ReadsDeltas(Get(doc, "right_deltas"), r.deltas)
    && Get(doc, "cleanup").Some? && ReadsCleanup(Get(doc, "cleanup").value, r.returned, r.cleanupNotes)
    && IsText(Get(doc, "notes"), r.notes)
  }

  /** The envelope as a tree, in which a copied environment stands for its value. */
  function EnvelopeTree(r: Result): Json {
    Obj(EnvelopeMembers(r))
  }

  function EnvelopeMembers(r: Result): seq<Member> {
    HeaderMembers(r.header) +
    [Member("environment", Environment(r.path, r.file)),
     Member("message", EmptyMessage()),
     Member("returns", Arr(ReturnTrees(r.calls))),
     Member("right_deltas", Arr(DeltaTrees(r.deltas))),
     CleanupMember(r.returned, r.cleanupNotes),
     Member("notes", Str(Pointee(r.notes)))]
  }

  method EmitReturns(j: Writer, rs: seq<Return>)
    requires j.Valid() && j.depth + 2 < LEVELS && j.At().InObj?
    modifies j, j.needComma
    ensures j.Valid() && j.depth == old(j.depth)
    ensures j.At() == AddMembers(old(j.At()), [Member("returns", Arr(ReturnTrees(rs)))])
  {
    hide Apply, Run, MoveAll, Initial, ReturnTrees, Writer.Valid, Writer.Now, Writer.At;
    j.Key(Chars("returns"));
    j.BeginArray();
    EmitReturnsItems(j, rs);
    assert j.At().items == ReturnTrees(rs);
    j.EndArray();
  }

  method EmitReturnsItems(j: Writer, rs: seq<Return>)
    requires j.Valid() && j.depth + 1 < LEVELS && j.At().InArr?
    modifies j, j.needComma
    ensures j.Valid() && j.depth == old(j.depth)
    ensures j.At() == AddItems(old(j.At()), ReturnTrees(rs))
  {
    hide Apply, Run, MoveAll, Initial, ReturnTree, Writer.Valid, Writer.Now, Writer.At;
    ghost var start := j.At();
    var k := 0;
    while k < |rs|
      invariant k <= |rs| && j.Valid() && j.depth == old(j.depth)
      invariant j.At() == AddItems(start, ReturnTrees(rs[..k]))
    {
      EmitReturn(j, rs[k]);
      k := k + 1;
      assert rs[..k][..k - 1] == rs[..k - 1];
    }
    assert rs[..|rs|] == rs;
  }

  method EmitDeltas(j: Writer, ds: seq<Delta>)
    requires j.Valid() && j.depth + 2 < LEVELS && j.At().InObj?
    modifies j, j.needComma
    ensures j.Valid() && j.depth == old(j.depth)
    ensures j.At() == AddMembers(old(j.At()), [Member("right_deltas", Arr(DeltaTrees(ds)))])
  {
    hide Apply, Run, MoveAll, Initial, DeltaTrees, Writer.Valid, Writer.Now, Writer.At;
    j.Key(Chars("right_deltas"));
    j.BeginArray();
    EmitDeltasItems(j, ds);
    assert j.At().items == DeltaTrees(ds);
    j.EndArray();
  }

  method EmitDeltasItems(j: Writer, ds: seq<Delta>)
    requires j.Valid() && j.depth + 1 < LEVELS && j.At().InArr?
    modifies j, j.needComma
    ensures j.Valid() && j.depth == old(j.depth)
    ensures j.At() == AddItems(old(j.At()), DeltaTrees(ds))
  {
    hide Apply, Run, MoveAll, Initial, DeltaTree, Writer.Valid, Writer.Now, Writer.At;
    ghost var start := j.At();
    var k := 0;
    while k < |ds|
      invariant k <= |ds| && j.Valid() && j.depth == old(j.depth)
      invariant j.At() == AddItems(start, DeltaTrees(ds[..k]))
    {
      EmitRightDelta(j, ds[k]);
      k := k + 1;
      assert ds[..k][..k - 1] == ds[..k - 1];
    }
    assert ds[..|ds|] == ds;
  }

  /**
   A probe's report, from the opening brace to the final line end. If the environment file, when there is
   one, holds one JSON value, the text is one JSON value, and every argument is found under its key.
   */
  method EmitResult(r: Result) returns (text: string)
    ensures Emittable(Environment(r.path, r.file)) ==>
              Emittable(EnvelopeTree(r)) && Denotes(text, Meaning(EnvelopeTree(r)))
    ensures (HasFile(r) ==> exists env :: Denotes(r.file.value, env)) ==> exists doc :: Denotes(text, doc) && Reads(doc, r)
  {
    hide Apply, Run, MoveAll, Initial, Denotes, Meaning, Emittable, EnvelopeTree, Environment, Writer.At, Reads, HasFile;
    var j := new Writer();
    EmitEnvelope(j, r);
    text := j.out + "\n";
    if Emittable(Environment(r.path, r.file)) {
      EnvelopeEmittable(r);
      WriterRoundTrip(j.calls);
      LineEndIgnored(j.out, Meaning(EnvelopeTree(r)));
      EnvelopeReads(r);
    }
    FileIsValue(r);
  }

  method EmitEnvelope(j: Writer, r: Result)
    requires j.Valid() && j.depth == 0 && j.At() == Empty
    modifies j, j.needComma
    ensures j.Valid() && MoveAll(j.calls) == Done(EnvelopeTree(r))
  {
    hide Apply, Run, MoveAll, Initial, HeaderMembers, Environment, EmptyMessage, ReturnTrees, DeltaTrees, CleanupMember,
         Writer.Valid, Writer.Now;
    j.BeginObject();
    EmitHeader(j, r.header);
    EmitEnvironment(j, r.path, r.file);
    EmitEmptyMessage(j);
    EmitReturns(j, r.calls);
    EmitDeltas(j, r.deltas);
    EmitCleanup(j, r.returned, r.cleanupNotes);
    KeyString(j, Chars("notes"), r.notes);
    assert j.At().members == EnvelopeMembers(r);
    j.EndObject();
  }

  lemma MessageEmittable()
    ensures Emittable(EmptyMessage())
  {
    assert Emittable(NoPort("remote_port").value) && Emittable(NoPort("local_port").value);
  }

  lemma ListsEmittable(r: Result)
    ensures Emittable(Arr(ReturnTrees(r.calls))) && Emittable(Arr(DeltaTrees(r.deltas)))
  {
    assert forall x :: Emittable(ReturnTree(x));
    assert forall x :: Emittable(DeltaTree(x));
  }

  lemma PartsEmittable(r: Result)
    ensures Emittable(CrossReference(r.header))
    ensures Emittable(CleanupMember(r.returned, r.cleanupNotes).value)
  {
  }

  lemma EnvelopeEmittable(r: Result)
    requires Emittable(Environment(r.path, r.file))
    ensures Emittable(EnvelopeTree(r))
  {
    hide Environment, EmptyMessage, CrossReference, CleanupMember, ReturnTrees, DeltaTrees;
    MessageEmittable();
    ListsEmittable(r);
    PartsEmittable(r);
    var ms := EnvelopeMembers(r);
    forall i | 0 <= i < |ms| ensures Emittable(ms[i].value) {
      if i < |HeaderMembers(r.header)| {
        assert ms[i] == HeaderMembers(r.header)[i];
      }
    }
  }

  // ---- reading the envelope by its keys -------------------------------------------------------------------------

  lemma FileIsValue(r: Result)
    ensures HasFile(r) && (exists env :: Denotes(r.file.value, env)) ==> Emittable(Environment(r.path, r.file))
    ensures !HasFile(r) ==> Emittable(Environment(r.path, r.file))
  {
    FallbackIsEmittable();
    hide FallbackEnvironment;
  }

  lemma EnvelopeKeys(r: Result)
    ensures DistinctKeys(EnvelopeMembers(r))
  {
    hide Environment, EmptyMessage, CrossReference, ReturnTrees, DeltaTrees;
    assert "schema"[1] != "status"[1];
    assert "agent"[0] != "notes"[0];
    assert "test_id"[0] == 't' && "message"[0] == 'm' && "returns"[0] == 'r' && "cleanup"[0] == 'c';
  }

  /** What a reader gets for a key, when its value is not copied from a file. */
  lemma PlainPart(r: Result, i: nat)
    requires Emittable(EnvelopeTree(r)) && i < |EnvelopeMembers(r)| && NoFiles(EnvelopeMembers(r)[i].value)
    ensures var m := EnvelopeMembers(r)[i]; Get(Meaning(EnvelopeTree(r)), m.key) == Some(m.value)
  {
    hide EnvelopeMembers, EnvelopeTree;
    Part(r, i);
    MeaningOfPlain(EnvelopeMembers(r)[i].value);
  }

  lemma Part(r: Result, i: nat)
    requires Emittable(EnvelopeTree(r)) && i < |EnvelopeMembers(r)|
    ensures var m := EnvelopeMembers(r)[i]; Emittable(m.value) && Get(Meaning(EnvelopeTree(r)), m.key) == Some(Meaning(m.value))
  {
    EnvelopeKeys(r);
    hide Get, EnvelopeMembers;
    var ms := EnvelopeMembers(r);
    forall k | 0 <= k < |ms| ensures MeaningMembers(ms)[k].key == ms[k].key {
      MeaningMemberAt(ms, k);
    }
    MeaningMemberAt(ms, i);
    GetAt(MeaningMembers(ms), i);
  }

  lemma HeaderReads(r: Result)
    requires Emittable(EnvelopeTree(r))
    ensures ReadsHeader(Meaning(EnvelopeTree(r)), r.header)
  {
    var h := r.header;
    assert NoFiles(CrossReference(h));
    CrossReferenceByKey(h);
    StatusByText(h.status);
    ClassByText(h.semanticClass);
    FirstParts(r);
    hide Get, ReadsCrossReference, CrossReference, StatusText, ClassText, IsStatus, IsClass, EnvelopeTree, EnvelopeMembers, Meaning, Emittable;
  }

  lemma FirstParts(r: Result)
    requires Emittable(EnvelopeTree(r)) && NoFiles(CrossReference(r.header))
    ensures var doc, h := Meaning(EnvelopeTree(r)), r.header;
            && Get(doc, "schema") == Some(Str(SCHEMA)) && Get(doc, "agent") == Some(Str(Pointee(h.agent)))
            && Get(doc, "test_id") == Some(Str(Pointee(h.testId))) && Get(doc, "cross_reference") == Some(CrossReference(h))
            && Get(doc, "status") == Some(Str(StatusText(h.status)))
            && Get(doc, "semantic_class") == Some(Str(ClassText(h.semanticClass)))
  {
    hide Get, EnvelopeTree, CrossReference, StatusText, ClassText, Meaning, Emittable, Environment, EmptyMessage, ReturnTrees, DeltaTrees, CleanupMember;
    PlainPart(r, 0);
    PlainPart(r, 1);
    PlainPart(r, 2);
    PlainPart(r, 3);
    PlainPart(r, 4);
    PlainPart(r, 5);
  }

  lemma LastParts(r: Result)
    requires Emittable(EnvelopeTree(r))
    requires NoFiles(EmptyMessage()) && NoFiles(Arr(ReturnTrees(r.calls))) && NoFiles(Arr(DeltaTrees(r.deltas)))
    requires NoFiles(CleanupMember(r.returned, r.cleanupNotes).value)
    ensures Emittable(Environment(r.path, r.file))
    ensures var doc := Meaning(EnvelopeTree(r));
            && Get(doc, "environment") == Some(Meaning(Environment(r.path, r.file)))
            && Get(doc, "message") == Some(EmptyMessage())
            && Get(doc, "returns") == Some(Arr(ReturnTrees(r.calls)))
            && Get(doc, "right_deltas") == Some(Arr(DeltaTrees(r.deltas)))
            && Get(doc, "cleanup") == Some(CleanupMember(r.returned, r.cleanupNotes).value)
            && Get(doc, "notes") == Some(Str(Pointee(r.notes)))
  {
    hide Get, EnvelopeTree, CrossReference, StatusText, ClassText, Meaning, Emittable, Environment, EmptyMessage, ReturnTrees, DeltaTrees;
    Part(r, 6);
    PlainPart(r, 7);
    PlainPart(r, 8);
    PlainPart(r, 9);
    PlainPart(r, 10);
    PlainPart(r, 11);
  }

  lemma NoFilesInParts(r: Result)
    ensures NoFiles(EmptyMessage()) && NoFiles(Arr(ReturnTrees(r.calls))) && NoFiles(Arr(DeltaTrees(r.deltas)))
    ensures NoFiles(CleanupMember(r.returned, r.cleanupNotes).value)
  {
    MessageIsPlain();
    ListsArePlain(r);
    hide EmptyMessage, ReturnTrees, DeltaTrees;
  }

  lemma MessageIsPlain()
    ensures NoFiles(EmptyMessage())
  {
    assert NoFiles(NoPort("remote_port").value) && NoFiles(NoPort("local_port").value);
  }

  lemma ListsArePlain(r: Result)
    ensures NoFiles(Arr(ReturnTrees(r.calls))) && NoFiles(Arr(DeltaTrees(r.deltas)))
  {
    assert forall x :: NoFiles(ReturnTree(x));
    assert forall x :: NoFiles(DeltaTree(x));
  }

  lemma FallbackIsPlain()
    ensures NoFiles(FallbackEnvironment())
  {
    assert NoFiles(AppleSilicon().value) && NoFiles(Signing().value);
  }

  lemma FallbackIsEmittable()
    ensures Emittable(FallbackEnvironment())
  {
    assert Emittable(AppleSilicon().value) && Emittable(Signing().value);
  }

  lemma EnvironmentReads(r: Result)
    requires Emittable(Environment(r.path, r.file))
    ensures ReadsEnvironment(Some(Meaning(Environment(r.path, r.file))), r)
  {
    if HasFile(r) {
      hide FallbackEnvironment;
      assert Environment(r.path, r.file) == Raw(r.file.value);
    } else {
      FallbackIsPlain();
      FallbackIsEmittable();
      hide FallbackEnvironment, Emittable, NoFiles, Meaning, Denotes;
      MeaningOfPlain(FallbackEnvironment());
    }
  }

  lemma ListsRead(r: Result)
    ensures ReadsReturns(Some(Arr(ReturnTrees(r.calls))), r.calls)
    ensures ReadsDeltas(Some(Arr(DeltaTrees(r.deltas))), r.deltas)
  {
    hide ReturnTree, DeltaTree, ReadsReturn, ReadsDelta;
    forall i | 0 <= i < |r.calls| ensures ReadsReturn(ReturnTrees(r.calls)[i], r.calls[i]) {
      ReturnByKey(r.calls[i]);
    }
    forall i | 0 <= i < |r.deltas| ensures ReadsDelta(DeltaTrees(r.deltas)[i], r.deltas[i]) {
      DeltaByKey(r.deltas[i]);
    }
  }

  lemma NotesRead(p: Pointer)
    ensures IsText(Some(Str(Pointee(p))), p)
  {
  }

  /** A reader finds every argument under its key. */
  lemma EnvelopeReads(r: Result)
    requires Emittable(EnvelopeTree(r))
    ensures Reads(Meaning(EnvelopeTree(r)), r)
  {
    NoFilesInParts(r);
    hide Get, Emittable, EnvelopeTree, Meaning, ReadsHeader, ReadsEnvironment, ReadsReturns, ReadsDeltas, ReadsCleanup, IsText, NoFiles,
         CleanupMember, ReturnTrees, DeltaTrees, EmptyMessage, Environment;
    HeaderReads(r);
    LastParts(r);
    EnvironmentReads(r);
    ListsRead(r);
    CleanupByKey(r.returned, r.cleanupNotes);
    NotesRead(r.notes);
  }
}
