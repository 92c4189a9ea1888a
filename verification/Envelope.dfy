/**
 The parts of a probe's result envelope: the helpers that write its header, environment, message, call
 returns, right deltas and cleanup.
 */
module Envelope {
  import opened JsonTree
  import opened JsonParser
  import opened JsonRoundTrip
  import opened JsonCalls
  import opened JsonContext
  import opened JsonWriter

  // ---- key and value in one call -----------------------------------------------------------------------

  method KeyString(j: Writer, key: Pointer, val: Pointer)
    requires j.Valid() && j.depth < LEVELS && j.At().InObj?
    modifies j, j.needComma
    ensures j.Valid() && j.depth == old(j.depth)
    ensures j.At() == AddMembers(old(j.At()), [Member(Pointee(key), Str(Pointee(val)))])
  {
    hide Apply;
    j.Key(key);
    j.String(val);
  }

  function StringOrNull(p: Pointer): Json {
    match p case NULL => Null case Chars(s) => Str(s)
  }

  method KeyStringOrNull(j: Writer, key: Pointer, val: Pointer)
    requires j.Valid() && j.depth < LEVELS && j.At().InObj?
    modifies j, j.needComma
    ensures j.Valid() && j.depth == old(j.depth)
    ensures j.At() == AddMembers(old(j.At()), [Member(Pointee(key), StringOrNull(val))])
  {
    hide Apply;
    j.Key(key);
    if val != NULL {
      j.String(val);
    } else {
      j.Nothing();
    }
  }

  method KeyNumber(j: Writer, key: Pointer, val: int)
    requires j.Valid() && j.depth < LEVELS && j.At().InObj?
    modifies j, j.needComma
    ensures j.Valid() && j.depth == old(j.depth)
    ensures j.At() == AddMembers(old(j.At()), [Member(Pointee(key), Int(val))])
  {
    hide Apply;
    j.Key(key);
    j.Number(val);
  }

  method KeyBoolean(j: Writer, key: Pointer, val: bool)
    requires j.Valid() && j.depth < LEVELS && j.At().InObj?
    modifies j, j.needComma
    ensures j.Valid() && j.depth == old(j.depth)
    ensures j.At() == AddMembers(old(j.At()), [Member(Pointee(key), Bool(val))])
  {
    hide Apply;
    j.Key(key);
    j.Boolean(val);
  }

  method KeyNothing(j: Writer, key: Pointer)
    requires j.Valid() && j.depth < LEVELS && j.At().InObj?
    modifies j, j.needComma
    ensures j.Valid() && j.depth == old(j.depth)
    ensures j.At() == AddMembers(old(j.At()), [Member(Pointee(key), Null)])
  {
    hide Apply;
    j.Key(key);
    j.Nothing();
  }

  // ---- header ----------------------------------------------------------------------------------------

  datatype Status = PASS | FAIL | SKIP | PROBE_FAILURE

  datatype SemanticClass =
    | EXACT_CONTRACT | EQUIVALENT_CONTRACT | VERSION_SENSITIVE | PRIVILEGE_SENSITIVE
    | NOT_OBSERVABLE | CLASS_PROBE_FAILURE | INTENTIONAL_DIVERGENCE

  function StatusText(s: Status): string {
    match s
    case PASS => "pass"
    case FAIL => "fail"
    case SKIP => "skip"
    case PROBE_FAILURE => "probe_failure"
  }

  function ClassText(c: SemanticClass): string {
    match c
    case EXACT_CONTRACT => "exact_contract"
    case EQUIVALENT_CONTRACT => "equivalent_contract"
    case VERSION_SENSITIVE => "version_sensitive"
    case PRIVILEGE_SENSITIVE => "privilege_sensitive"
    case NOT_OBSERVABLE => "not_observable"
    case CLASS_PROBE_FAILURE => "probe_failure"
    case INTENTIONAL_DIVERGENCE => "intentional_divergence"
  }

  const SCHEMA: string := "nx-r64z.macos-oracle.v1"

  datatype Header = Header(agent: Pointer, testId: Pointer, nextbsdTestId: Pointer, donorId: Pointer,
                           status: Status, semanticClass: SemanticClass)

  function CrossReference(h: Header): Json {
    Obj([Member("nextbsd_test_id", StringOrNull(h.nextbsdTestId)),
         Member("donor_equivalent_id", StringOrNull(h.donorId))])
  }

  function HeaderMembers(h: Header): seq<Member> {
    [Member("schema", Str(SCHEMA)),
     Member("agent", Str(Pointee(h.agent))),
     Member("test_id", Str(Pointee(h.testId))),
     Member("cross_reference", CrossReference(h)),
     Member("status", Str(StatusText(h.status))),
     Member("semantic_class", Str(ClassText(h.semanticClass)))]
  }

  method EmitCrossReference(j: Writer, h: Header)
    requires j.Valid() && j.depth + 1 < LEVELS && j.At().InObj?
    modifies j, j.needComma
    ensures j.Valid() && j.depth == old(j.depth)
    ensures j.At() == AddMembers(old(j.At()), [Member("cross_reference", CrossReference(h))])
  {
    hide Apply, Run, MoveAll, Initial, Writer.Valid, Writer.Now, Writer.At;
    j.Key(Chars("cross_reference"));
    j.BeginObject();
    KeyStringOrNull(j, Chars("nextbsd_test_id"), h.nextbsdTestId);
    KeyStringOrNull(j, Chars("donor_equivalent_id"), h.donorId);
    assert j.At().members == CrossReference(h).members;
    j.EndObject();
  }

  method EmitHeader(j: Writer, h: Header)
    requires j.Valid() && j.depth + 1 < LEVELS && j.At().InObj?
    modifies j, j.needComma
    ensures j.Valid() && j.depth == old(j.depth)
    ensures j.At() == AddMembers(old(j.At()), HeaderMembers(h))
  {
    hide Apply, Run, MoveAll, Initial, StatusText, ClassText, CrossReference, Writer.Valid, Writer.Now, Writer.At;
    KeyString(j, Chars("schema"), Chars(SCHEMA));
    KeyString(j, Chars("agent"), h.agent);
    KeyString(j, Chars("test_id"), h.testId);
    EmitCrossReference(j, h);
    KeyString(j, Chars("status"), Chars(StatusText(h.status)));
    KeyString(j, Chars("semantic_class"), Chars(ClassText(h.semanticClass)));
  }

  // ---- cleanup, returns and right deltas ------------------------------------------------------------------

  function CleanupMember(returned: bool, notes: Pointer): Member {
    Member("cleanup", Obj([Member("returned_to_baseline", Bool(returned)), Member("notes", Str(Pointee(notes)))]))
  }

  method EmitCleanup(j: Writer, returned: bool, notes: Pointer)
    requires j.Valid() && j.depth + 1 < LEVELS && j.At().InObj?
    modifies j, j.needComma
    ensures j.Valid() && j.depth == old(j.depth)
    ensures j.At() == AddMembers(old(j.At()), [CleanupMember(returned, notes)])
  {
    hide Apply, Run, MoveAll, Initial, Writer.Valid, Writer.Now, Writer.At;
    j.Key(Chars("cleanup"));
    j.BeginObject();
    KeyBoolean(j, Chars("returned_to_baseline"), returned);
    KeyString(j, Chars("notes"), if notes == NULL then Chars("") else notes);
    assert j.At().members == CleanupMember(returned, notes).value.members;
    j.EndObject();
  }

  /** One recorded call; `errno` is present or not. */
  datatype Return = Return(call: Pointer, returned: Pointer, raw: int, errno: Option<int>)

  function ReturnTree(r: Return): Json {
    Obj([Member("call", Str(Pointee(r.call))),
         Member("returned", Str(Pointee(r.returned))),
         Member("raw", Int(r.raw)),
         Member("errno", if r.errno.Some? then Int(r.errno.value) else Null)])
  }

  method EmitReturn(j: Writer, r: Return)
    requires j.Valid() && j.depth + 1 < LEVELS && j.At().InArr?
    modifies j, j.needComma
    ensures j.Valid() && j.depth == old(j.depth)
    ensures j.At() == AddItems(old(j.At()), [ReturnTree(r)])
  {
    hide Apply, Run, MoveAll, Initial, Writer.Valid, Writer.Now, Writer.At;
    j.BeginObject();
    KeyString(j, Chars("call"), r.call);
    KeyString(j, Chars("returned"), r.returned);
    KeyNumber(j, Chars("raw"), r.raw);
    if r.errno.Some? {
      KeyNumber(j, Chars("errno"), r.errno.value);
    } else {
      KeyNothing(j, Chars("errno"));
    }
    assert j.At().members == ReturnTree(r).members;
    j.EndObject();
  }

  datatype Delta = Delta(operation: Pointer, portName: Pointer, rightType: Pointer,
                         beforeUrefs: int, afterUrefs: int, entryBefore: int, entryAfter: int,
                         expected: Pointer)

  /** A count that could not be observed is passed as a negative number and written as null. */
  function CountOrNull(n: int): Json {
    if n >= 0 then Int(n) else Null
  }

  function DeltaTree(d: Delta): Json {
    Obj([Member("operation", Str(Pointee(d.operation))),
         Member("port_name", Str(Pointee(d.portName))),
         Member("right_type", Str(Pointee(d.rightType))),
         Member("before_urefs", CountOrNull(d.beforeUrefs)),
         Member("after_urefs", CountOrNull(d.afterUrefs)),
         Member("entry_refs_before", CountOrNull(d.entryBefore)),
         Member("entry_refs_after", CountOrNull(d.entryAfter)),
         Member("expected", Str(Pointee(d.expected)))])
  }

  method KeyCount(j: Writer, key: Pointer, n: int)
    requires j.Valid() && j.depth < LEVELS && j.At().InObj?
    modifies j, j.needComma
    ensures j.Valid() && j.depth == old(j.depth)
    ensures j.At() == AddMembers(old(j.At()), [Member(Pointee(key), CountOrNull(n))])
  {
    if n >= 0 {
      KeyNumber(j, key, n);
    } else {
      KeyNothing(j, key);
    }
  }

  method EmitRightDelta(j: Writer, d: Delta)
    requires j.Valid() && j.depth + 1 < LEVELS && j.At().InArr?
    modifies j, j.needComma
    ensures j.Valid() && j.depth == old(j.depth)
    ensures j.At() == AddItems(old(j.At()), [DeltaTree(d)])
  {
    hide Apply, Run, MoveAll, Initial, CountOrNull, Writer.Valid, Writer.Now, Writer.At;
    j.BeginObject();
    KeyString(j, Chars("operation"), d.operation);
    KeyString(j, Chars("port_name"), d.portName);
    KeyString(j, Chars("right_type"), d.rightType);
    KeyCount(j, Chars("before_urefs"), d.beforeUrefs);
    KeyCount(j, Chars("after_urefs"), d.afterUrefs);
    KeyCount(j, Chars("entry_refs_before"), d.entryBefore);
    KeyCount(j, Chars("entry_refs_after"), d.entryAfter);
    KeyString(j, Chars("expected"), d.expected);
    assert j.At().members == DeltaTree(d).members;
    j.EndObject();
  }

  // ---- environment -------------------------------------------------------------------------------------

  function Unknown(key: string): Member {
    Member(key, Null)
  }

  function HostMembers(): seq<Member> {
    [Unknown("sw_vers"), Unknown("uname"), Unknown("os_name"), Unknown("kernel_version"),
     Unknown("result_dir_name"), Unknown("arch"), Unknown("machine")]
  }

  function ToolMembers(): seq<Member> {
    [Unknown("compiler"), Unknown("sdk"), Unknown("sdk_version"), Unknown("sdk_path"),
     Unknown("xcode_select_path"), Unknown("cpu_brand"), Member("cpu_features", Obj([]))]
  }

  function AppleSilicon(): Member {
    Member("apple_silicon",
           Obj([Unknown("hw_optional_arm64"), Unknown("arm64e"), Unknown("pointer_authentication"),
                Member("raw_sysctls", Obj([]))]))
  }

  function PolicyMembers(): seq<Member> {
    [Unknown("rosetta"), Unknown("sip_enabled"), Unknown("sandboxed"), Member("run_as_root", Bool(false)),
     Member("ad_hoc_signed", Bool(false)), Member("hardened_runtime", Bool(false))]
  }

  function Signing(): Member {
    Member("signing", Obj([Member("binaries", Arr([]))]))
  }

  function ZigMembers(): seq<Member> {
    [Unknown("zig_version"), Unknown("zig_path"), Unknown("zig_lib_dir"), Member("zig_fallback", Bool(false)),
     Unknown("zig_fallback_reason")]
  }

  /** A probe's built-in environment, used when the harness supplies none. */
  function FallbackEnvironment(): Json {
    Obj(HostMembers() + ToolMembers() + [AppleSilicon()] + PolicyMembers() + [Signing()] + ZigMembers())
  }

  method EmitHostAndTools(j: Writer)
    requires j.Valid() && j.depth + 1 < LEVELS && j.At().InObj?
    modifies j, j.needComma
    ensures j.Valid() && j.depth == old(j.depth)
    ensures j.At() == AddMembers(old(j.At()), HostMembers() + ToolMembers())
  {
    hide Apply, Run, MoveAll, Initial, Writer.Valid, Writer.Now, Writer.At;
    ghost var start := j.At();
    KeyNothing(j, Chars("sw_vers"));
    KeyNothing(j, Chars("uname"));
    KeyNothing(j, Chars("os_name"));
    KeyNothing(j, Chars("kernel_version"));
    KeyNothing(j, Chars("result_dir_name"));
    KeyNothing(j, Chars("arch"));
    KeyNothing(j, Chars("machine"));
    assert j.At() == AddMembers(start, HostMembers());
    EmitTools(j);
  }

  method EmitTools(j: Writer)
    requires j.Valid() && j.depth + 1 < LEVELS && j.At().InObj?
    modifies j, j.needComma
    ensures j.Valid() && j.depth == old(j.depth)
    ensures j.At() == AddMembers(old(j.At()), ToolMembers())
  {
    hide Apply, Run, MoveAll, Initial, Writer.Valid, Writer.Now, Writer.At;
    KeyNothing(j, Chars("compiler"));
    KeyNothing(j, Chars("sdk"));
    KeyNothing(j, Chars("sdk_version"));
    KeyNothing(j, Chars("sdk_path"));
    KeyNothing(j, Chars("xcode_select_path"));
    KeyNothing(j, Chars("cpu_brand"));
    j.Key(Chars("cpu_features"));
    j.BeginObject();
    j.EndObject();
  }

  method EmitAppleSilicon(j: Writer)
    requires j.Valid() && j.depth + 2 < LEVELS && j.At().InObj?
    modifies j, j.needComma
    ensures j.Valid() && j.depth == old(j.depth)
    ensures j.At() == AddMembers(old(j.At()), [AppleSilicon()])
  {
    hide Apply, Run, MoveAll, Initial, Writer.Valid, Writer.Now, Writer.At;
    j.Key(Chars("apple_silicon"));
    j.BeginObject();
    KeyNothing(j, Chars("hw_optional_arm64"));
    KeyNothing(j, Chars("arm64e"));
    KeyNothing(j, Chars("pointer_authentication"));
    j.Key(Chars("raw_sysctls"));
    j.BeginObject();
    j.EndObject();
    assert j.At().members == AppleSilicon().value.members;
    j.EndObject();
  }

  method EmitPolicyAndSigning(j: Writer)
    requires j.Valid() && j.depth + 2 < LEVELS && j.At().InObj?
    modifies j, j.needComma
    ensures j.Valid() && j.depth == old(j.depth)
    ensures j.At() == AddMembers(old(j.At()), PolicyMembers() + [Signing()])
  {
    hide Apply, Run, MoveAll, Initial, Writer.Valid, Writer.Now, Writer.At;
    ghost var start := j.At();
    KeyNothing(j, Chars("rosetta"));
    KeyNothing(j, Chars("sip_enabled"));
    KeyNothing(j, Chars("sandboxed"));
    KeyBoolean(j, Chars("run_as_root"), false);
    KeyBoolean(j, Chars("ad_hoc_signed"), false);
    KeyBoolean(j, Chars("hardened_runtime"), false);
    assert j.At() == AddMembers(start, PolicyMembers());
    EmitSigning(j);
  }

  method EmitSigning(j: Writer)
    requires j.Valid() && j.depth + 2 < LEVELS && j.At().InObj?
    modifies j, j.needComma
    ensures j.Valid() && j.depth == old(j.depth)
    ensures j.At() == AddMembers(old(j.At()), [Signing()])
  {
    hide Apply, Run, MoveAll, Initial, Writer.Valid, Writer.Now, Writer.At;
    j.Key(Chars("signing"));
    j.BeginObject();
    j.Key(Chars("binaries"));
    j.BeginArray();
    j.EndArray();
    assert j.At().members == Signing().value.members;
    j.EndObject();
  }

  method EmitZig(j: Writer)
    requires j.Valid() && j.depth < LEVELS && j.At().InObj?
    modifies j, j.needComma
    ensures j.Valid() && j.depth == old(j.depth)
    ensures j.At() == AddMembers(old(j.At()), ZigMembers())
  {
    hide Apply, Run, MoveAll, Initial, Writer.Valid, Writer.Now, Writer.At;
    KeyNothing(j, Chars("zig_version"));
    KeyNothing(j, Chars("zig_path"));
    KeyNothing(j, Chars("zig_lib_dir"));
    KeyBoolean(j, Chars("zig_fallback"), false);
    KeyNothing(j, Chars("zig_fallback_reason"));
  }

  /** The fallback is written in one go; the groups keep each step small. */
  method EmitFallback(j: Writer)
    requires j.Valid() && j.depth + 3 < LEVELS && j.At().AtKey?
    modifies j, j.needComma
    ensures j.Valid() && j.depth == old(j.depth)
    ensures j.At() == AddValue(old(j.At()), FallbackEnvironment())
  {
    hide Apply, Run, MoveAll, Initial, Writer.Valid, Writer.Now, Writer.At,
         HostMembers, ToolMembers, AppleSilicon, PolicyMembers, Signing, ZigMembers;
    j.BeginObject();
    EmitHostAndTools(j);
    EmitAppleSilicon(j);
    EmitPolicyAndSigning(j);
    EmitZig(j);
    assert j.At().members == FallbackEnvironment().members;
    j.EndObject();
  }

  /** The environment a probe embeds: the harness's file if it is named and opens, else the fallback. */
  function Environment(path: Pointer, file: Option<string>): Json {
    if Pointee(path) != "" && file.Some? then Raw(file.value) else FallbackEnvironment()
  }

  /** `file` is what opening `path` yields: its bytes, or nothing if it cannot be opened. */
  method EmitEnvironment(j: Writer, path: Pointer, file: Option<string>)
    requires j.Valid() && j.depth + 3 < LEVELS && j.At().InObj?
    modifies j, j.needComma
    ensures j.Valid() && j.depth == old(j.depth)
    ensures j.At() == AddMembers(old(j.At()), [Member("environment", Environment(path, file))])
  {
    hide Apply, Run, MoveAll, Initial, FallbackEnvironment, Writer.Valid, Writer.Now, Writer.At;
    j.Key(Chars("environment"));
    if path != NULL && path.s != "" && file.Some? {
      j.CopyFile(file.value);
    } else {
      EmitFallback(j);
    }
  }

  // ---- the message of probes that send none ------------------------------------------------------------

  function NoPort(key: string): Member {
    Member(key, Obj([Unknown("name"), Unknown("disposition"), Unknown("right_type")]))
  }

  function EmptyMessage(): Json {
    Obj([Member("msgh_bits", Str("")), NoPort("remote_port"), NoPort("local_port"),
         Member("header_rights", Arr([])), Member("descriptor_count", Int(0)), Member("descriptors", Arr([]))])
  }

  method EmitNoPort(j: Writer, key: Pointer)
    requires j.Valid() && j.depth + 1 < LEVELS && j.At().InObj?
    modifies j, j.needComma
    ensures j.Valid() && j.depth == old(j.depth)
    ensures j.At() == AddMembers(old(j.At()), [NoPort(Pointee(key))])
  {
    hide Apply, Run, MoveAll, Initial, Writer.Valid, Writer.Now, Writer.At;
    j.Key(key);
    j.BeginObject();
    KeyNothing(j, Chars("name"));
    KeyNothing(j, Chars("disposition"));
    KeyNothing(j, Chars("right_type"));
    assert j.At().members == NoPort(Pointee(key)).value.members;
    j.EndObject();
  }

  method KeyEmptyArray(j: Writer, key: Pointer)
    requires j.Valid() && j.depth + 1 < LEVELS && j.At().InObj?
    modifies j, j.needComma
    ensures j.Valid() && j.depth == old(j.depth)
    ensures j.At() == AddMembers(old(j.At()), [Member(Pointee(key), Arr([]))])
  {
    hide Apply, Run, MoveAll, Initial, Writer.Valid, Writer.Now, Writer.At;
    j.Key(key);
    j.BeginArray();
    j.EndArray();
  }

  method EmitEmptyMessage(j: Writer)
    requires j.Valid() && j.depth + 2 < LEVELS && j.At().InObj?
    modifies j, j.needComma
    ensures j.Valid() && j.depth == old(j.depth)
    ensures j.At() == AddMembers(old(j.At()), [Member("message", EmptyMessage())])
  {
    hide Apply, Run, MoveAll, Initial, NoPort, Writer.Valid, Writer.Now, Writer.At;
    j.Key(Chars("message"));
    j.BeginObject();
    KeyString(j, Chars("msgh_bits"), Chars(""));
    EmitNoPort(j, Chars("remote_port"));
    EmitNoPort(j, Chars("local_port"));
    KeyEmptyArray(j, Chars("header_rights"));
    KeyNumber(j, Chars("descriptor_count"), 0);
    KeyEmptyArray(j, Chars("descriptors"));
    assert j.At().members == EmptyMessage().members;
    j.EndObject();
  }
}
