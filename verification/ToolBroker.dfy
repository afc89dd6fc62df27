/** The Tool Broker: authorisation, the sandbox execution path and the evidence it hands back. */
module ToolBroker {
  import opened Json
  import opened Strings
  import Actions
  import Forbidden = ForbiddenFields

  newtype Byte = x: int | 0 <= x < 256

  type Bytes = seq<Byte>

  type Digest = s: string | |s| == 64 witness seq(64, _ => '0')

  const STRUCTURED_CONTRACT_TOOL := "validate_structured_contract"
  const MODEL_PROGRAM_SOURCE_TOOL := "validate_model_program_source"
  const MODEL_PROGRAM_TOOL := "execute_model_program"
  const API_ID := "cadquery_v1"

  const RECOVERY_ACTION :=
    "Install and verify an OS-enforced CadFlow sandbox profile before enabling model-program execution."

  const OUTPUT_BYTES := 67108864
  const ARCHIVE_OVERHEAD := 1048576
  const STDOUT_BYTES := 262144
  const STDERR_BYTES := 262144

  // ---------------------------------------------------- what surrounds a call

  /** What `json.loads` does with some bytes: a document, a `ValueError`, or nesting beyond the interpreter's limit. */
  datatype Parse = Parsed(value: Value) | Malformed | TooDeep

  /**
   * Hashing, encoding and redaction, and the in-process validators, as functions. `fits` tells the integers that
   * convert to a float, below 2^1024 - 2^970 in size; `math.isfinite` raises on the others.
   */
  datatype Platform = Platform(
    hash: Bytes -> Digest,
    encode: string -> Bytes,
    decode: Bytes -> string,
    parse: Bytes -> Parse,
    canonical: Value -> Bytes,
    show: Value -> string,
    redact: string -> string,
    policy: string -> Option<seq<string>>,
    validator: Value -> Option<Value>,
    order: Forbidden.KeyOrder,
    dump: Value -> Bytes,
    fits: int -> bool)

  datatype Attestation = Attestation(digest: string, profileDigest: string, toolchainDigest: string)

  /** `content` is what reading `size + 1` bytes of the member returns, when it can be read. */
  datatype Member = Member(name: string, regular: bool, size: int, content: Option<Bytes>)

  /** `members` is absent when the bytes are not a tar file. */
  datatype Archive = Archive(size: nat, members: Option<seq<Member>>)

  datatype SandboxResult = SandboxResult(codes: seq<string>, exitState: string, archive: Archive, stderr: string)

  datatype Outcome = Raised | NotAResult | Ran(result: SandboxResult)

  /** `attestation` is absent when the executor has none that verifies. */
  datatype Executor = Executor(attestation: Option<Attestation>, outcome: Outcome)

  /** What the outside contributes to one call. */
  datatype World = World(executionId: string, evidenceExists: bool, persistFails: bool, fallbackFails: bool)

  datatype Config = Config(
    available: bool, capabilityDigest: Option<string>, capability: Value, executor: Option<Executor>)

  datatype Context = Context(workId: string, runId: string, partJobId: string, episodeId: string)

  datatype Request = Request(apiId: Value, candidateId: string, source: Value, parameters: Value)

  // ------------------------------------------------------------- observations

  datatype Observation = Observation(
    toolId: string, success: bool, observationType: string, codes: seq<Value>, output: Value,
    profile: string, sideEffect: bool, executionId: Option<string>, attestation: Option<string>,
    exitState: Option<string>)

  /** Errors no clause of the call catches: iterating a number, converting too large an integer, nesting too deep. */
  datatype UncaughtError = TypeError | OverflowError | RecursionError

  datatype Reply = Observed(observation: Observation) | Failure(error: UncaughtError)

  /** The reply, the requests handed to the executor, and the evidence manifests left on disk. */
  datatype Invocation = Invocation(reply: Reply, calls: seq<Request>, manifests: seq<Value>)

  function ProfileOf(toolId: string): string {
    if toolId == MODEL_PROGRAM_TOOL then "wsl2_cadquery_v1"
    else if toolId == MODEL_PROGRAM_SOURCE_TOOL then "local_pure_source_validation_v1"
    else if toolId == STRUCTURED_CONTRACT_TOOL then "local_pure_validation_v1"
    else "none"
  }

  function AllowedSkills(toolId: string): set<string> {
    if toolId == STRUCTURED_CONTRACT_TOOL then {"design_part", "legacy_create_part_ir"} else {"model_program"}
  }

  function Plain(toolId: string, success: bool, kind: string, codes: seq<string>, output: Value): Observation {
    Observation(toolId, success, kind, Texts(codes), output, ProfileOf(toolId), false, None, None, None)
  }

  function Texts(codes: seq<string>): seq<Value> {
    seq(|codes|, i requires 0 <= i < |codes| => Str(codes[i]))
  }

  function Quiet(o: Observation): Invocation {
    Invocation(Observed(o), [], [])
  }

  function Flag(fields: map<string, Value>, key: string): bool {
    Get(fields, key) == Some(Bool(true))
  }

  ghost predicate NoOutputs(output: Value) {
    output.Obj? && (Get(output.fields, "outputs").None? || Get(output.fields, "outputs") == Some(Arr([])))
  }

  ghost predicate NotPublishable(output: Value) {
    && output.Obj?
    && !Flag(output.fields, "reviewable") && !Flag(output.fields, "accepted") && !Flag(output.fields, "deliverable")
  }

  /** A typed failure that ran nothing, left nothing and offers nothing. */
  ghost predicate Refusal(inv: Invocation) {
    && inv.reply.Observed? && !inv.reply.observation.success && !inv.reply.observation.sideEffect
    && inv.calls == [] && inv.manifests == []
    && NoOutputs(inv.reply.observation.output) && NotPublishable(inv.reply.observation.output)
  }

  function Blocked(toolId: string, kind: string, code: string): (refusal: Invocation)
    ensures Refusal(refusal)
  {
    Quiet(Plain(toolId, false, kind, [code], Obj(map["blocked" := Bool(true), "code" := Str(code)])))
  }

  // ------------------------------------------------------ reading the archive

  predicate AllowedMember(name: string) {
    name in {"observation.json", "stdout.txt", "stderr.txt", "model.step"}
  }

  predicate MemberOk(m: Member) {
    && AllowedMember(m.name)
    && m.regular
    && 0 <= m.size <= OUTPUT_BYTES
    && m.content.Some? && |m.content.value| == m.size
  }

  /** The files of an archive, or none when any member is refused. */
  function FilesOf(members: seq<Member>, files: map<string, Bytes>): Option<map<string, Bytes>>
    decreases |members|
  {
    if members == [] then Some(files)
    else if !MemberOk(members[0]) || members[0].name in files then None
    else FilesOf(members[1..], files[members[0].name := members[0].content.value])
  }

  method ReadMembers(members: seq<Member>) returns (files: Option<map<string, Bytes>>)
    ensures files == FilesOf(members, map[])
  {
    var read: map<string, Bytes> := map[];
    for i := 0 to |members|
      invariant FilesOf(members, map[]) == FilesOf(members[i..], read)
    {
      var m := members[i];
      assert members[i..][0] == m && members[i..][1..] == members[i + 1..];
      if !AllowedMember(m.name) || m.name in read {
        return None;
      }
      if !m.regular {
        return None;
      }
      if m.size < 0 || m.size > OUTPUT_BYTES {
        return None;
      }
      if m.content.None? || |m.content.value| != m.size {
        return None;
      }
      read := read[m.name := m.content.value];
    }
    files := Some(read);
  }

  /** `isinstance(v, int)`: Booleans are integers. */
  function Whole(v: Value): Option<int> {
    match v
    case Int(i) => Some(i)
    case Bool(b) => Some(if b then 1 else 0)
    case _ => None
  }

  /** What a number compares equal to. */
  function Amount(v: Value): Option<real> {
    if v.Float? then Some(v.r)
    else if Whole(v).Some? then Some(Whole(v).value as real)
    else None
  }

  predicate Positive(p: Platform, v: Value) {
    Amount(v).Some? && Amount(v).value > 0.0 && (v.Int? ==> p.fits(v.i))
  }

  /** The broker's own check of one geometry record, when nothing raises. */
  predicate GeometryOk(p: Platform, g: Value) {
    && g.Obj?
    && Flag(g.fields, "valid")
    && "solid_count" in g.fields && Whole(g.fields["solid_count"]).Some? && Whole(g.fields["solid_count"]).value >= 1
    && "volume" in g.fields && Positive(p, g.fields["volume"])
    && "bounding_box" in g.fields && g.fields["bounding_box"].Obj?
    && var box := g.fields["bounding_box"].fields;
       && box.Keys == {"x", "y", "z"}
       && Positive(p, box["x"]) && Positive(p, box["y"]) && Positive(p, box["z"])
  }

  /** Both geometries are there and the re-import claims to be valid. */
  predicate ReimportShape(o: map<string, Value>) {
    && "geometry" in o && o["geometry"].Obj?
    && "step_reimport" in o && o["step_reimport"].Obj?
    && Flag(o["step_reimport"].fields, "valid")
    && "geometry" in o["step_reimport"].fields && o["step_reimport"].fields["geometry"].Obj?
  }

  /** Two complete geometries of the same number of solids. */
  predicate ReimportOk(p: Platform, o: map<string, Value>) {
    && ReimportShape(o)
    && var source, imported := o["geometry"], o["step_reimport"].fields["geometry"];
       && GeometryOk(p, source) && GeometryOk(p, imported)
       && Whole(imported.fields["solid_count"]) == Whole(source.fields["solid_count"])
  }

  /** How a sequence of checks ends: passed, refused by the first that fails, or raised by the first that raises. */
  datatype Verdict = Pass | Refuse | Overflow
  {
    function Then(next: Verdict): Verdict {
      if Pass? then next else this
    }
  }

  function CheckThat(condition: bool): Verdict {
    if condition then Pass else Refuse
  }

  /** `isinstance(v, (int, float)) and math.isfinite(v) and v > 0` */
  function CheckPositive(p: Platform, v: Option<Value>): Verdict {
    if v.None? || Amount(v.value).None? then Refuse
    else if v.value.Int? && !p.fits(v.value.i) then Overflow
    else CheckThat(Amount(v.value).value > 0.0)
  }

  function CheckBounds(p: Platform, bounds: Option<Value>): Verdict {
    if bounds.None? || !bounds.value.Obj? || bounds.value.fields.Keys != {"x", "y", "z"} then Refuse
    else
      var box := bounds.value.fields;
      CheckPositive(p, Get(box, "x")).Then(CheckPositive(p, Get(box, "y"))).Then(CheckPositive(p, Get(box, "z")))
  }

  function CheckGeometry(p: Platform, g: map<string, Value>): Verdict {
    var solids := if "solid_count" in g then Whole(g["solid_count"]) else None;
    CheckThat(Flag(g, "valid") && solids.Some? && solids.value >= 1)
      .Then(CheckPositive(p, Get(g, "volume")))
      .Then(CheckBounds(p, Get(g, "bounding_box")))
  }

  /** `_validate_step_reimport_observation` */
  function CheckReimport(p: Platform, o: map<string, Value>): Verdict {
    if !ReimportShape(o) then Refuse
    else
      var source, imported := o["geometry"].fields, o["step_reimport"].fields["geometry"].fields;
      CheckGeometry(p, source)
        .Then(CheckGeometry(p, imported))
        .Then(CheckThat(Get(imported, "solid_count").Some? && Get(source, "solid_count").Some?
                        && Whole(imported["solid_count"]) == Whole(source["solid_count"])))
  }

  datatype Work = Work(files: map<string, Bytes>, observation: map<string, Value>)

  /** `Escaped`: the error left the checks, and no except clause names it. */
  datatype ArchiveCheck = Accepted(work: Work) | Refused | Escaped(error: UncaughtError)

  function SizeOf(files: map<string, Bytes>, name: string): nat {
    if name in files then |files[name]| else 0
  }

  predicate WorkerObservationOk(o: Value) {
    && o.Obj?
    && "schema_version" in o.fields && Amount(o.fields["schema_version"]) == Some(1.0)
    && "success" in o.fields && o.fields["success"].Bool?
  }

  /** The product a successful worker must and a failed one must not have left. */
  function CheckProduct(p: Platform, files: map<string, Bytes>, o: map<string, Value>): Verdict {
    if Flag(o, "success") then
      CheckThat(0 < SizeOf(files, "model.step") <= OUTPUT_BYTES).Then(CheckReimport(p, o))
    else
      CheckThat("model.step" !in files)
  }

  predicate TextsFit(files: map<string, Bytes>) {
    SizeOf(files, "stdout.txt") <= STDOUT_BYTES && SizeOf(files, "stderr.txt") <= STDERR_BYTES
  }

  /** The archive checks after the files have been read. */
  function CheckFiles(p: Platform, files: map<string, Bytes>): ArchiveCheck {
    if "observation.json" !in files then Refused
    else
      var parsed := p.parse(files["observation.json"]);
      if parsed.TooDeep? then Escaped(RecursionError)
      else if parsed.Malformed? || !WorkerObservationOk(parsed.value) then Refused
      else
        match CheckProduct(p, files, parsed.value.fields)
        case Refuse => Refused
        case Overflow => Escaped(OverflowError)
        case Pass => if TextsFit(files) then Accepted(Work(files, parsed.value.fields)) else Refused
  }

  /** `_validate_worker_archive` */
  function CheckArchive(p: Platform, archive: Archive): ArchiveCheck {
    if archive.size > OUTPUT_BYTES + ARCHIVE_OVERHEAD || archive.members.None? then Refused
    else
      var files := FilesOf(archive.members.value, map[]);
      if files.None? then Refused else CheckFiles(p, files.value)
  }

  method ValidateWorkerArchive(p: Platform, archive: Archive) returns (check: ArchiveCheck)
    ensures check == CheckArchive(p, archive)
  {
    if archive.size > OUTPUT_BYTES + ARCHIVE_OVERHEAD {
      return Refused;
    }
    if archive.members.None? {
      return Refused;
    }
    var files := ReadMembers(archive.members.value);
    if files.None? {
      return Refused;
    }
    check := CheckFiles(p, files.value);
  }

  // ------------------------------------------------------ persisting evidence

  /** `_sanitize_observation`, as redaction of the text leaves. */
  function Sanitized(p: Platform, v: Value): Value {
    match v
    case Str(s) => Str(p.redact(s))
    case Arr(items) => Arr(seq(|items|, i requires 0 <= i < |items| => Sanitized(p, items[i])))
    case Obj(fields) => Obj(map k | k in fields :: Sanitized(p, fields[k]))
    case _ => v
  }

  datatype FileEntry = FileEntry(name: string, sha256: Digest, size: nat)

  function Stored(p: Platform, name: string, content: Bytes): Bytes {
    if EndsWith(name, ".txt") then p.encode(p.redact(p.decode(content))) else content
  }

  function EntryOf(p: Platform, name: string, content: Bytes): FileEntry {
    FileEntry(name, p.hash(content), |content|)
  }

  const EVIDENCE_NAMES := ["stdout.txt", "stderr.txt", "model.step"]

  function FileEntries(p: Platform, names: seq<string>, files: map<string, Bytes>): seq<FileEntry> {
    if names == [] then []
    else
      (if names[0] in files then [EntryOf(p, names[0], Stored(p, names[0], files[names[0]]))] else [])
      + FileEntries(p, names[1..], files)
  }

  function Truncated(s: string): string {
    if |s| > STDERR_BYTES then s[..STDERR_BYTES] else s
  }

  function LauncherEntries(p: Platform, stderr: string): seq<FileEntry> {
    if stderr == "" then []
    else [EntryOf(p, "launcher_stderr.txt", p.encode(Truncated(p.redact(stderr))))]
  }

  function EvidenceEntries(p: Platform, files: map<string, Bytes>, stderr: string): seq<FileEntry> {
    FileEntries(p, EVIDENCE_NAMES, files) + LauncherEntries(p, stderr)
  }

  function EntryFields(entry: FileEntry): map<string, Value> {
    map["name" := Str(entry.name), "sha256" := Str(entry.sha256), "size" := Int(entry.size)]
  }

  function EntryValues(entries: seq<FileEntry>): seq<Value> {
    seq(|entries|, i requires 0 <= i < |entries| => Obj(EntryFields(entries[i])))
  }

  function OutputOf(entry: FileEntry, root: string): seq<Value> {
    if entry.name == "model.step" then
      [Obj(EntryFields(entry)["relative_path" := Str(root + "/" + entry.name)])]
    else []
  }

  function Outputs(entries: seq<FileEntry>, root: string): seq<Value> {
    if entries == [] then [] else OutputOf(entries[0], root) + Outputs(entries[1..], root)
  }

  datatype Run = Run(context: Context, request: Request, executionId: string, attestation: Attestation)

  function EvidenceRoot(run: Run): string {
    "candidates/" + run.request.candidateId + "/" + run.executionId
  }

  function SourceHash(p: Platform, request: Request): Digest {
    p.hash(SourceBytes(p, request))
  }

  function OrEmpty(v: Option<Value>): Value {
    if v.Some? then v.value else Obj(map[])
  }

  function Manifest(p: Platform, run: Run, worker: Value, entries: seq<FileEntry>): Value
    requires worker.Obj?
  {
    Obj(map[
      "schema_version" := Int(1),
      "owner" := Str("cadflow_tool_broker"),
      "trust_role" := Str(if Flag(worker.fields, "success") then "candidate" else "diagnostic"),
      "reviewable" := Bool(false),
      "accepted" := Bool(false),
      "deliverable" := Bool(false),
      "work_id" := Str(run.context.workId),
      "run_id" := Str(run.context.runId),
      "part_job_id" := Str(run.context.partJobId),
      "episode_id" := Str(run.context.episodeId),
      "candidate_id" := Str(run.request.candidateId),
      "execution_id" := Str(run.executionId),
      "api_id" := run.request.apiId,
      "source_hash" := Str(SourceHash(p, run.request)),
      "parameters_hash" := Str(p.hash(p.canonical(run.request.parameters))),
      "attestation_digest" := Str(run.attestation.digest),
      "profile_digest" := Str(run.attestation.profileDigest),
      "toolchain_digest" := Str(run.attestation.toolchainDigest),
      "worker_observation" := Sanitized(p, worker),
      "files" := Arr(EntryValues(entries))])
  }

  function EvidenceRecord(p: Platform, run: Run, worker: map<string, Value>, entries: seq<FileEntry>): Value {
    var clean := Sanitized(p, Obj(worker)).fields;
    Obj(map[
      "candidate_id" := Str(run.request.candidateId),
      "execution_id" := Str(run.executionId),
      "source_hash" := Str(SourceHash(p, run.request)),
      "parameters_hash" := Str(p.hash(p.canonical(run.request.parameters))),
      "profile_digest" := Str(run.attestation.profileDigest),
      "toolchain_digest" := Str(run.attestation.toolchainDigest),
      "geometry" := OrEmpty(Get(clean, "geometry")),
      "step_reimport" := OrEmpty(Get(clean, "step_reimport")),
      "evidence_manifest" := Str(EvidenceRoot(run) + "/evidence_manifest.json"),
      "outputs" := Arr(Outputs(entries, EvidenceRoot(run))),
      "reviewable" := Bool(false),
      "accepted" := Bool(false),
      "deliverable" := Bool(false)])
  }

  const NEWLINE: Bytes := [10]

  function SourceBytes(p: Platform, request: Request): Bytes {
    if request.source.Str? then p.encode(request.source.s) else []
  }

  /** The files written before the archive's own. */
  function CoreFiles(p: Platform, run: Run, worker: map<string, Value>): map<string, Bytes> {
    map["source.py" := SourceBytes(p, run.request),
        "parameters.json" := p.canonical(run.request.parameters) + NEWLINE,
        "observation.json" := p.dump(Sanitized(p, Obj(worker))) + NEWLINE]
  }

  /** The archive's files that are kept, in the order they are written. */
  function KeptFiles(p: Platform, names: seq<string>, files: map<string, Bytes>): map<string, Bytes> {
    if names == [] then map[]
    else
      var kept := KeptFiles(p, names[..|names| - 1], files);
      var name := names[|names| - 1];
      if name in files then kept[name := Stored(p, name, files[name])] else kept
  }

  function LauncherFile(p: Platform, stderr: string): map<string, Bytes> {
    if stderr == "" then map[] else map["launcher_stderr.txt" := p.encode(Truncated(p.redact(stderr)))]
  }

  /** Everything in the evidence directory. */
  function DirectoryOf(p: Platform, run: Run, worker: map<string, Value>, files: map<string, Bytes>, stderr: string,
                       manifest: Value): map<string, Bytes> {
    CoreFiles(p, run, worker) + KeptFiles(p, EVIDENCE_NAMES, files) + LauncherFile(p, stderr)
    + map["evidence_manifest.json" := p.dump(manifest) + NEWLINE]
  }

  datatype Evidence = Evidence(record: Value, manifest: Value, directory: map<string, Bytes>)

  function EvidenceOf(p: Platform, run: Run, worker: map<string, Value>, files: map<string, Bytes>, stderr: string)
    : Evidence
  {
    var entries := EvidenceEntries(p, files, stderr);
    var manifest := Manifest(p, run, Obj(worker), entries);
    Evidence(EvidenceRecord(p, run, worker, entries), manifest,
             DirectoryOf(p, run, worker, files, stderr, manifest))
  }

  // -------------------------------------------------------- the execution path

  predicate SafeId(s: string) {
    && 1 <= |s| <= 96
    && Alphanumeric(s[0])
    && forall i | 1 <= i < |s| :: Alphanumeric(s[i]) || s[i] == '.' || s[i] == '_' || s[i] == '-'
  }

  predicate Alphanumeric(c: char) {
    IsUpper(c) || IsLower(c) || IsDigit(c)
  }

  /** `tuple(value) == ("step",)`; a dictionary is iterated by its keys. */
  predicate OnlyStep(v: Value) {
    v == Arr([Str("step")]) || (v.Obj? && v.fields.Keys == {"step"})
  }

  /** The typed request, when every constructor check passes. */
  function RequestOf(p: Platform, payload: map<string, Value>): Option<Request> {
    if payload.Keys != {"api_id", "candidate_id", "source", "parameters", "requested_outputs"} then None
    else if !payload["candidate_id"].Str? || !SafeId(payload["candidate_id"].s) then None
    else if !OnlyStep(payload["requested_outputs"]) then None
    else if !Actions.ParametersOk(payload["parameters"], v => |p.canonical(v)|) then None
    else Some(Request(payload["api_id"], payload["candidate_id"].s, payload["source"], payload["parameters"]))
  }

  /** The policy's codes for a source, or none when the policy itself raised. */
  function PolicyCodes(p: Platform, source: Value): Option<seq<string>> {
    if source.Str? then p.policy(source.s) else Some(["source_empty"])
  }

  function FailedWorker(kind: string, code: string, exitState: string): map<string, Value> {
    map["schema_version" := Int(1), "success" := Bool(false), "observation_type" := Str(kind),
        "codes" := Arr([Str(code)]), "exit_state" := Str(exitState)]
  }

  /** `source_hash` is read from a policy result that names it `source_sha256`, so it is null. */
  function UnpersistedRecord(request: Request, parametersHash: Option<string>): Value {
    var base := map["candidate_id" := Str(request.candidateId), "source_hash" := Null,
                    "evidence_persisted" := Bool(false), "reviewable" := Bool(false),
                    "accepted" := Bool(false), "deliverable" := Bool(false)];
    Obj(if parametersHash.Some? then base["parameters_hash" := Str(parametersHash.value)] else base)
  }

  function Executed(run: Run, success: bool, kind: string, codes: seq<Value>, output: Value, exitState: string)
    : Observation
  {
    Observation(MODEL_PROGRAM_TOOL, success, kind, codes, output, ProfileOf(MODEL_PROGRAM_TOOL), true,
                Some(run.executionId), Some(run.attestation.digest), Some(exitState))
  }

  function Failed(p: Platform, run: Run, kind: string, code: string, exitState: string, workerExit: string,
                  stderr: string, persistFails: bool, fallback: Value): Invocation
  {
    var evidence := EvidenceOf(p, run, FailedWorker(kind, code, workerExit), map[], stderr);
    var output := if persistFails then fallback else evidence.record;
    Invocation(Observed(Executed(run, false, kind, [Str(code)], output, exitState)), [run.request],
               if persistFails then [] else [evidence.manifest])
  }

  /** No archive came back. */
  function WithoutArchive(p: Platform, run: Run, result: SandboxResult, w: World): Invocation {
    var code := if result.codes != [] then result.codes[0] else "sandbox_protocol_error";
    var parametersHash := p.hash(p.canonical(run.request.parameters));
    Failed(p, run, "model_program_execution_failed", code, result.exitState, result.exitState, result.stderr,
           w.persistFails, UnpersistedRecord(run.request, Some(parametersHash)))
  }

  /** The archive was refused, or its evidence could not be written. */
  function BadArchive(p: Platform, run: Run, result: SandboxResult, w: World): Invocation {
    Failed(p, run, "sandbox_protocol_error", "sandbox_protocol_error", "invalid_archive", "invalid_archive",
           result.stderr, w.fallbackFails, UnpersistedRecord(run.request, None))
  }

  predicate Truthy(v: Value) {
    match v
    case Null => false
    case Bool(b) => b
    case Int(i) => i != 0
    case Float(r) => r != 0.0
    case Str(s) => s != ""
    case Arr(items) => items != []
    case Obj(fields) => fields != map[]
  }

  /** `tuple(value or ())`, or none when the value cannot be iterated. */
  function CodesOf(p: Platform, v: Option<Value>): Option<seq<Value>> {
    if v.None? || !Truthy(v.value) then Some([])
    else
      match v.value
      case Arr(items) => Some(items)
      case Str(s) => Some(seq(|s|, i requires 0 <= i < |s| => Str([s[i]])))
      case Obj(fields) => Some(Texts(p.order("codes", fields)))
      case _ => None
  }

  function TextOr(p: Platform, v: Option<Value>, default: string): string {
    if v.Some? && Truthy(v.value) then (if v.value.Str? then v.value.s else p.show(v.value)) else default
  }

  /** The archive was accepted and its evidence written. */
  function WithArchive(p: Platform, run: Run, result: SandboxResult, work: Work): Invocation {
    var evidence := EvidenceOf(p, run, work.observation, work.files, result.stderr);
    var success := Flag(work.observation, "success");
    var codes := CodesOf(p, Get(work.observation, "codes"));
    var kind := if success then "model_program_execution_completed" else "model_program_execution_failed";
    if codes.None? then Invocation(Failure(TypeError), [run.request], [evidence.manifest])
    else
      var shown := if !success && codes.value == [] then [Str("model_program_runtime_error")] else codes.value;
      Invocation(
        Observed(Executed(run, success, TextOr(p, Get(work.observation, "observation_type"), kind), shown,
                          evidence.record, TextOr(p, Get(work.observation, "exit_state"), result.exitState))),
        [run.request], [evidence.manifest])
  }

  /** A raising executor or a wrong result type becomes a result without an archive. */
  function ResultOf(outcome: Outcome): SandboxResult {
    match outcome
    case Raised => SandboxResult(["sandbox_protocol_error"], "executor_exception", Archive(0, None), "")
    case NotAResult => SandboxResult(["sandbox_protocol_error"], "invalid_executor_result", Archive(0, None), "")
    case Ran(result) => result
  }

  function Execution(p: Platform, run: Run, outcome: Outcome, w: World): Invocation {
    var result := ResultOf(outcome);
    if result.archive.size == 0 then WithoutArchive(p, run, result, w)
    else
      match CheckArchive(p, result.archive)
      case Escaped(error) => Invocation(Failure(error), [run.request], [])
      case Refused => BadArchive(p, run, result, w)
      case Accepted(work) => if w.persistFails then BadArchive(p, run, result, w) else WithArchive(p, run, result, work)
  }

  /** The gates before the executor: the run they admit, or the typed refusal. */
  function Admission(c: Config, p: Platform, w: World, payload: map<string, Value>, context: Option<Context>)
    : Result<Run, Invocation>
  {
    var tool, rejected := MODEL_PROGRAM_TOOL, "tool_input_rejected";
    if c.executor.None? then Err(Blocked(tool, "sandbox_unavailable", "sandbox_attestation_failed"))
    else if context.None? then Err(Blocked(tool, rejected, "invalid_execution_context"))
    else
      var request := RequestOf(p, payload);
      if request.None? then Err(Blocked(tool, rejected, "invalid_model_program_request"))
      else if request.value.apiId != Str(API_ID) then Err(Blocked(tool, rejected, "unsupported_model_program_api"))
      else
        var codes := PolicyCodes(p, request.value.source);
        if codes.None? then Err(Blocked(tool, rejected, "source_validation_exception"))
        else if codes.value != [] then Err(SourceRefused(codes.value))
        else
          var attestation := c.executor.value.attestation;
          if attestation.None? || Some(attestation.value.digest) != c.capabilityDigest then
            Err(Blocked(tool, rejected, "sandbox_attestation_failed"))
          else if w.evidenceExists then Err(Blocked(tool, rejected, "execution_evidence_conflict"))
          else Ok(Run(context.value, request.value, w.executionId, attestation.value))
  }

  function SourceRefused(codes: seq<string>): (refusal: Invocation)
    ensures Refusal(refusal)
  {
    Quiet(Plain(MODEL_PROGRAM_TOOL, false, "sandbox_policy_rejected", codes,
                Obj(map["blocked" := Bool(true), "source_hash" := Null, "source_retained" := Bool(false)])))
  }

  /** `_invoke_model_program_executor` */
  function ExecutorCall(c: Config, p: Platform, w: World, payload: map<string, Value>, context: Option<Context>)
    : Invocation
  {
    match Admission(c, p, w, payload, context)
    case Err(refusal) => refusal
    case Ok(run) => Execution(p, run, if c.executor.Some? then c.executor.value.outcome else NotAResult, w)
  }

  // ------------------------------------------------------ the pure validators

  function SourceCall(p: Platform, payload: map<string, Value>): Invocation {
    var tool := MODEL_PROGRAM_SOURCE_TOOL;
    if payload.Keys != {"api_id", "source"} || !payload["api_id"].Str? || !payload["source"].Str? then
      Blocked(tool, "source_validation_rejected", "invalid_source_contract")
    else if payload["api_id"].s != API_ID then
      Quiet(Plain(tool, false, "source_validation_rejected", ["unsupported_model_program_api"],
                  Obj(map["valid" := Bool(false), "supported_api_ids" := Arr([Str(API_ID)]),
                          "source_retained" := Bool(false)])))
    else
      var codes := PolicyCodes(p, payload["source"]);
      if codes.None? then
        Quiet(Plain(tool, false, "source_validation_failed", ["source_validation_exception"],
                    Obj(map["valid" := Bool(false), "source_retained" := Bool(false)])))
      else
        Quiet(Plain(tool, codes.value == [],
                    if codes.value == [] then "source_validation_passed" else "source_validation_failed", codes.value,
                    Obj(map["valid" := Bool(codes.value == []), "codes" := Arr(Texts(codes.value)),
                            "source_retained" := Bool(false)])))
  }

  function ValidationFeedback(code: string): Value {
    Obj(map["valid" := Bool(false), "errors" := Arr([Obj(map["code" := Str(code)])]),
            "warnings" := Arr([]), "checks" := Arr([])])
  }

  predicate FeedbackOk(feedback: Value) {
    feedback.Obj? && "valid" in feedback.fields && feedback.fields["valid"].Bool?
  }

  /** What the structured validator said, or a typed failure when it raised or answered in another shape. */
  function FeedbackOf(p: Platform, contract: Value): Value {
    var feedback := p.validator(contract);
    if feedback.Some? && FeedbackOk(feedback.value) then feedback.value else ValidationFeedback("validation_exception")
  }

  function ErrorCodes(errors: seq<Value>): seq<string> {
    if errors == [] then []
    else
      (if errors[0].Obj? && "code" in errors[0].fields && errors[0].fields["code"].Str?
       then [errors[0].fields["code"].s] else [])
      + ErrorCodes(errors[1..])
  }

  function FeedbackCodes(feedback: map<string, Value>): seq<string> {
    if "errors" in feedback && feedback["errors"].Arr? then ErrorCodes(feedback["errors"].items) else []
  }

  function ContractRefused(code: string): Invocation {
    Quiet(Plain(STRUCTURED_CONTRACT_TOOL, false, "contract_validation_failed", [code], ValidationFeedback(code)))
  }

  function ContractCall(p: Platform, payload: map<string, Value>): Invocation
    requires Forbidden.Enumerates(p.order)
  {
    if payload.Keys != {"contract_type", "contract"} then ContractRefused("invalid_contract_shape")
    else if payload["contract_type"] != Str("cad_ir_draft") then ContractRefused("unsupported_contract_type")
    else if !payload["contract"].Obj? then ContractRefused("invalid_contract_shape")
    else if Forbidden.FindForbiddenField(payload["contract"], "", p.order).Some? then
      ContractRefused("forbidden_execution_field")
    else
      var feedback := FeedbackOf(p, payload["contract"]);
      var success := feedback.fields["valid"].b;
      Quiet(Plain(STRUCTURED_CONTRACT_TOOL, success,
                  if success then "contract_validation_passed" else "contract_validation_failed",
                  FeedbackCodes(feedback.fields), feedback))
  }

  predicate Registered(toolId: string) {
    toolId == STRUCTURED_CONTRACT_TOOL || toolId == MODEL_PROGRAM_SOURCE_TOOL || toolId == MODEL_PROGRAM_TOOL
  }

  function Unavailable(toolId: string, capability: Value): (refusal: Invocation)
    ensures Refusal(refusal)
  {
    Quiet(Plain(toolId, false, "sandbox_unavailable", ["sandbox_unavailable"],
                Obj(map["capability" := capability, "recovery_action" := Str(RECOVERY_ACTION)])))
  }

  /** `CadFlowToolBroker.invoke` */
  function Invoke(
      c: Config, p: Platform, w: World, toolId: string, skill: string, payload: Value, context: Option<Context>)
    : Invocation
    requires Forbidden.Enumerates(p.order)
  {
    if !Registered(toolId) then Blocked(toolId, "policy_blocked", "tool_not_registered")
    else if skill !in AllowedSkills(toolId) then Blocked(toolId, "policy_blocked", "tool_not_allowed_for_skill")
    else if !payload.Obj? then Blocked(toolId, "tool_input_rejected", "tool_input_invalid")
    else if toolId == MODEL_PROGRAM_TOOL then
      if !c.available then Unavailable(toolId, c.capability) else ExecutorCall(c, p, w, payload.fields, context)
    else if toolId == MODEL_PROGRAM_SOURCE_TOOL then SourceCall(p, payload.fields)
    else ContractCall(p, payload.fields)
  }

  // ----------------------------------------- the Episode's own completion check

  function TextField(fields: map<string, Value>, key: string): bool {
    key in fields && fields[key].Str?
  }

  /** The Episode's check of a single STEP output record. */
  predicate StepRecordOk(step: Value) {
    && step.Obj?
    && Get(step.fields, "name") == Some(Str("model.step"))
    && TextField(step.fields, "sha256") && |step.fields["sha256"].s| == 64
    && "size" in step.fields && Whole(step.fields["size"]).Some? && Whole(step.fields["size"]).value > 0
  }

  /** `_execution_output_has_valid_reimport` */
  predicate ValidReimport(output: Value) {
    && output.Obj?
    && var o := output.fields;
       && "geometry" in o && o["geometry"].Obj?
       && Flag(o["geometry"].fields, "valid")
       && "solid_count" in o["geometry"].fields && Whole(o["geometry"].fields["solid_count"]).Some?
       && Whole(o["geometry"].fields["solid_count"]).value >= 1
       && "step_reimport" in o && o["step_reimport"].Obj?
       && Flag(o["step_reimport"].fields, "valid")
       && "geometry" in o["step_reimport"].fields && o["step_reimport"].fields["geometry"].Obj?
       && Flag(o["step_reimport"].fields["geometry"].fields, "valid")
       && "solid_count" in o["step_reimport"].fields["geometry"].fields
       && Amount(o["step_reimport"].fields["geometry"].fields["solid_count"])
          == Amount(o["geometry"].fields["solid_count"])
       && "outputs" in o && o["outputs"].Arr? && |o["outputs"].items| == 1 && StepRecordOk(o["outputs"].items[0])
       && TextField(o, "source_hash") && TextField(o, "parameters_hash")
       && TextField(o, "profile_digest") && TextField(o, "toolchain_digest")
  }
}
