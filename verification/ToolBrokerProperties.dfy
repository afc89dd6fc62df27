/** What every call of the Tool Broker guarantees to the Episode that made it. */
module ToolBrokerProperties {
  import opened Json
  import opened Strings
  import opened ToolBroker
  import Actions
  import Forbidden = ForbiddenFields

  // ------------------------------------------------------- archive acceptance

  ghost predicate DistinctNames(members: seq<Member>) {
    forall i, j | 0 <= i < j < |members| :: members[i].name != members[j].name
  }

  ghost predicate AllOk(members: seq<Member>) {
    forall i | 0 <= i < |members| :: MemberOk(members[i])
  }

  ghost predicate Fresh(members: seq<Member>, files: map<string, Bytes>) {
    forall i | 0 <= i < |members| :: members[i].name !in files
  }

  ghost predicate Holds(files: map<string, Bytes>, m: Member) {
    m.content.Some? && Get(files, m.name) == Some(m.content.value)
  }

  ghost predicate AllHeld(files: map<string, Bytes>, members: seq<Member>) {
    forall i | 0 <= i < |members| :: Holds(files, members[i])
  }

  lemma HasContent(m: Member)
    requires MemberOk(m)
    ensures m.content.Some?
  {
  }

  /** Reading succeeds exactly on regular, allowed, sized and distinct members. */
  lemma {:induction false} ReadExactly(members: seq<Member>, files: map<string, Bytes>)
    ensures FilesOf(members, files).Some? <==> AllOk(members) && DistinctNames(members) && Fresh(members, files)
    decreases |members|
  {
    hide MemberOk;
    if members != [] {
      var m, rest := members[0], members[1..];
      if MemberOk(m) && m.name !in files {
        HasContent(m);
        var grown := files[m.name := m.content.value];
        ReadExactly(rest, grown);
        ConsOk(members);
        ConsFresh(members, files, grown);
      }
    }
  }

  lemma ConsOk(members: seq<Member>)
    requires members != []
    ensures AllOk(members) <==> MemberOk(members[0]) && AllOk(members[1..])
  {
    hide MemberOk;
    var rest := members[1..];
    if MemberOk(members[0]) && AllOk(rest) {
      forall i | 0 <= i < |members| ensures MemberOk(members[i]) {
        if i > 0 { assert rest[i - 1] == members[i]; }
      }
    }
    if AllOk(members) {
      forall i | 0 <= i < |rest| ensures MemberOk(rest[i]) { assert rest[i] == members[i + 1]; }
    }
  }

  lemma ConsFresh(members: seq<Member>, files: map<string, Bytes>, grown: map<string, Bytes>)
    requires members != [] && members[0].name !in files && grown.Keys == files.Keys + {members[0].name}
    ensures DistinctNames(members) && Fresh(members, files) <==>
            DistinctNames(members[1..]) && Fresh(members[1..], grown)
  {
    var rest := members[1..];
    assert forall k :: k in grown <==> k in grown.Keys;
    if DistinctNames(members) && Fresh(members, files) {
      forall i, j | 0 <= i < j < |rest| ensures rest[i].name != rest[j].name {
        assert members[i + 1].name != members[j + 1].name;
      }
      forall i | 0 <= i < |rest| ensures rest[i].name !in grown {
        assert members[0].name != members[i + 1].name && members[i + 1].name !in files;
      }
    }
    if DistinctNames(rest) && Fresh(rest, grown) {
      forall i | 0 <= i < |members| ensures members[i].name !in files {
        if i > 0 { assert rest[i - 1].name !in grown; }
      }
      forall i, j | 0 <= i < j < |members| ensures members[i].name != members[j].name {
        if i == 0 { assert rest[j - 1].name !in grown; } else { assert rest[i - 1].name != rest[j - 1].name; }
      }
    }
  }

  /** What is read stays: every member's bytes under its name. */
  lemma {:induction false} ReadHolds(members: seq<Member>, files: map<string, Bytes>)
    requires FilesOf(members, files).Some?
    ensures forall k | k in files :: Get(FilesOf(members, files).value, k) == Some(files[k])
    ensures AllHeld(FilesOf(members, files).value, members)
    decreases |members|
  {
    if members != [] {
      var m, rest := members[0], members[1..];
      var grown := files[m.name := m.content.value];
      var all := FilesOf(rest, grown).value;
      ReadHolds(rest, grown);
      assert forall k | k in files :: Get(all, k) == Some(grown[k]);
      assert Get(all, m.name) == Some(grown[m.name]);
      forall i | 0 <= i < |members| ensures Holds(all, members[i]) {
        if i > 0 { assert Holds(all, rest[i - 1]); }
      }
    }
  }

  /** The content of the first member of this name. */
  ghost function Named(members: seq<Member>, name: string): Option<Bytes> {
    if members == [] then None
    else if members[0].name == name then members[0].content
    else Named(members[1..], name)
  }

  lemma {:induction false} NamedIsRead(members: seq<Member>, files: map<string, Bytes>, name: string)
    requires FilesOf(members, files).Some?
    ensures Get(FilesOf(members, files).value, name)
         == if Named(members, name).Some? then Named(members, name) else Get(files, name)
    decreases |members|
  {
    if members != [] {
      var m := members[0];
      var grown := files[m.name := m.content.value];
      NamedIsRead(members[1..], grown, name);
      if m.name == name {
        ReadHolds(members[1..], grown);
      }
    }
  }

  ghost function Length(members: seq<Member>, name: string): nat {
    if Named(members, name).Some? then |Named(members, name).value| else 0
  }

  /** What the reading loop accepts. */
  ghost predicate Readable(archive: Archive) {
    && archive.size <= OUTPUT_BYTES + ARCHIVE_OVERHEAD
    && archive.members.Some? && AllOk(archive.members.value) && DistinctNames(archive.members.value)
  }

  /** The worker's observation, when the archive holds one of the right shape. */
  ghost function Observation(p: Platform, archive: Archive): Option<map<string, Value>> {
    if archive.members.None? || Named(archive.members.value, "observation.json").None? then None
    else
      var parsed := p.parse(Named(archive.members.value, "observation.json").value);
      if !parsed.Parsed? || !WorkerObservationOk(parsed.value) then None else Some(parsed.value.fields)
  }

  /** The contract a worker archive has to meet. */
  ghost predicate Acceptable(p: Platform, archive: Archive) {
    && Readable(archive) && Observation(p, archive).Some?
    && var members, o := archive.members.value, Observation(p, archive).value;
       && (if Flag(o, "success") then 0 < Length(members, "model.step") <= OUTPUT_BYTES && ReimportOk(p, o)
           else Named(members, "model.step").None?)
       && Length(members, "stdout.txt") <= STDOUT_BYTES && Length(members, "stderr.txt") <= STDERR_BYTES
  }

  /** The archives whose check meets an integer too large to convert before anything refuses them. */
  ghost predicate Overflowing(p: Platform, archive: Archive) {
    && Readable(archive) && Observation(p, archive).Some?
    && var members, o := archive.members.value, Observation(p, archive).value;
       Flag(o, "success") && 0 < Length(members, "model.step") <= OUTPUT_BYTES && CheckReimport(p, o).Overflow?
  }

  /** The archives whose observation is nested too deep to be parsed. */
  ghost predicate TooNested(p: Platform, archive: Archive) {
    && Readable(archive) && Named(archive.members.value, "observation.json").Some?
    && p.parse(Named(archive.members.value, "observation.json").value).TooDeep?
  }

  lemma PositivePasses(p: Platform, v: Option<Value>)
    ensures CheckPositive(p, v).Pass? <==> v.Some? && Positive(p, v.value)
    ensures (forall i :: p.fits(i)) ==> !CheckPositive(p, v).Overflow?
  {
  }

  lemma GeometryPasses(p: Platform, g: map<string, Value>)
    ensures CheckGeometry(p, g).Pass? <==> GeometryOk(p, Obj(g))
    ensures (forall i :: p.fits(i)) ==> !CheckGeometry(p, g).Overflow?
  {
    hide CheckPositive, Positive;
    PositivePasses(p, Get(g, "volume"));
    if "bounding_box" in g && g["bounding_box"].Obj? {
      var box := g["bounding_box"].fields;
      PositivePasses(p, Get(box, "x"));
      PositivePasses(p, Get(box, "y"));
      PositivePasses(p, Get(box, "z"));
    }
  }

  /** The sequential check passes exactly on the declared contract, and raises only on an integer that does not fit. */
  lemma ReimportPassesExactly(p: Platform, o: map<string, Value>)
    ensures CheckReimport(p, o).Pass? <==> ReimportOk(p, o)
    ensures (forall i :: p.fits(i)) ==> !CheckReimport(p, o).Overflow?
  {
    hide CheckGeometry;
    if ReimportShape(o) {
      var source, imported := o["geometry"], o["step_reimport"].fields["geometry"];
      assert Obj(source.fields) == source && Obj(imported.fields) == imported;
      GeometryPasses(p, source.fields);
      GeometryPasses(p, imported.fields);
    }
  }

  /** The verdicts on an archive, without the reading loop and the order of the checks. */
  lemma ArchiveAcceptedExactly(p: Platform, archive: Archive)
    ensures CheckArchive(p, archive).Accepted? <==> Acceptable(p, archive)
    ensures CheckArchive(p, archive) == Escaped(OverflowError) <==> Overflowing(p, archive)
    ensures CheckArchive(p, archive) == Escaped(RecursionError) <==> TooNested(p, archive)
    ensures CheckArchive(p, archive) != Escaped(TypeError)
    ensures CheckArchive(p, archive).Accepted? ==>
              var work := CheckArchive(p, archive).work;
              && Observation(p, archive) == Some(work.observation)
              && AllHeld(work.files, archive.members.value)
              && (forall name :: Get(work.files, name) == Named(archive.members.value, name))
  {
    hide AllOk, DistinctNames, ReimportOk, CheckReimport;
    if archive.members.Some? && archive.size <= OUTPUT_BYTES + ARCHIVE_OVERHEAD {
      ReadExactly(archive.members.value, map[]);
      if FilesOf(archive.members.value, map[]).Some? {
        ReadHolds(archive.members.value, map[]);
        forall name
          ensures Get(FilesOf(archive.members.value, map[]).value, name) == Named(archive.members.value, name)
        {
          NamedIsRead(archive.members.value, map[], name);
        }
        FilesCheckedExactly(p, archive);
      }
    }
  }

  lemma FilesCheckedExactly(p: Platform, archive: Archive)
    requires archive.members.Some? && FilesOf(archive.members.value, map[]).Some?
    requires forall name ::
               Get(FilesOf(archive.members.value, map[]).value, name) == Named(archive.members.value, name)
    requires archive.size <= OUTPUT_BYTES + ARCHIVE_OVERHEAD
    ensures var check := CheckFiles(p, FilesOf(archive.members.value, map[]).value);
            && (check.Accepted? <==> Readable(archive) && Acceptable(p, archive))
            && (check == Escaped(OverflowError) <==> Readable(archive) && Overflowing(p, archive))
            && (check == Escaped(RecursionError) <==> Readable(archive) && TooNested(p, archive))
            && check != Escaped(TypeError)
            && (check.Accepted? ==> check.work.files == FilesOf(archive.members.value, map[]).value
                                    && Observation(p, archive) == Some(check.work.observation))
  {
    hide FilesOf, Named, AllOk, DistinctNames, ReimportOk, CheckReimport;
    ReadExactly(archive.members.value, map[]);
    var members, files := archive.members.value, FilesOf(archive.members.value, map[]).value;
    forall name
      ensures SizeOf(files, name) == Length(members, name) && (name in files <==> Named(members, name).Some?)
    {
      assert Get(files, name) == Named(members, name);
    }
    if Observation(p, archive).Some? {
      ReimportPassesExactly(p, Observation(p, archive).value);
    }
  }

  // --------------------------------------- sanitising keeps the re-import facts

  lemma SanitizedKeepsGeometry(p: Platform, g: Value)
    requires GeometryOk(p, g)
    ensures Sanitized(p, g).Obj? && Flag(Sanitized(p, g).fields, "valid")
    ensures Get(Sanitized(p, g).fields, "solid_count") == Some(g.fields["solid_count"])
  {
    assert Sanitized(p, g).fields["valid"] == Sanitized(p, g.fields["valid"]);
    assert Sanitized(p, g).fields["solid_count"] == Sanitized(p, g.fields["solid_count"]);
  }

  lemma SanitizedKeepsReimport(p: Platform, o: map<string, Value>)
    requires ReimportOk(p, o)
    ensures var clean := Sanitized(p, Obj(o)).fields;
            && "geometry" in clean && clean["geometry"].Obj? && Flag(clean["geometry"].fields, "valid")
            && Get(clean["geometry"].fields, "solid_count") == Some(o["geometry"].fields["solid_count"])
            && "step_reimport" in clean && clean["step_reimport"].Obj? && Flag(clean["step_reimport"].fields, "valid")
            && "geometry" in clean["step_reimport"].fields && clean["step_reimport"].fields["geometry"].Obj?
            && Flag(clean["step_reimport"].fields["geometry"].fields, "valid")
            && Get(clean["step_reimport"].fields["geometry"].fields, "solid_count")
               == Some(o["step_reimport"].fields["geometry"].fields["solid_count"])
  {
    var clean := Sanitized(p, Obj(o)).fields;
    var reimport := o["step_reimport"];
    SanitizedKeepsGeometry(p, o["geometry"]);
    SanitizedKeepsGeometry(p, reimport.fields["geometry"]);
    assert clean["geometry"] == Sanitized(p, o["geometry"]);
    assert clean["step_reimport"] == Sanitized(p, reimport);
    assert clean["step_reimport"].fields["valid"] == Sanitized(p, reimport.fields["valid"]);
    assert clean["step_reimport"].fields["geometry"] == Sanitized(p, reimport.fields["geometry"]);
  }

  // ----------------------------------------------------------- output records

  lemma {:induction false} OutputsConcat(x: seq<FileEntry>, y: seq<FileEntry>, root: string)
    ensures Outputs(x + y, root) == Outputs(x, root) + Outputs(y, root)
  {
    hide OutputOf;
    if x == [] {
      assert x + y == y;
    } else {
      assert (x + y)[0] == x[0] && (x + y)[1..] == x[1..] + y;
      OutputsConcat(x[1..], y, root);
      var first, rest := OutputOf(x[0], root), Outputs(x[1..], root);
      assert first + (rest + Outputs(y, root)) == (first + rest) + Outputs(y, root);
    }
  }

  function StepFields(p: Platform, step: Bytes, root: string): map<string, Value> {
    EntryFields(EntryOf(p, "model.step", step))["relative_path" := Str(root + "/" + "model.step")]
  }

  lemma {:induction false} FileOutputs(p: Platform, names: seq<string>, files: map<string, Bytes>, root: string)
    requires "model.step" !in names
    ensures Outputs(FileEntries(p, names, files), root) == []
  {
    if names != [] {
      FileOutputs(p, names[1..], files, root);
      assert names[0] != "model.step";
      if names[0] in files {
        OutputsConcat([EntryOf(p, names[0], Stored(p, names[0], files[names[0]]))],
                      FileEntries(p, names[1..], files), root);
      } else {
        assert FileEntries(p, names, files) == FileEntries(p, names[1..], files);
      }
    }
  }

  lemma {:induction false} FileEntriesConcat(p: Platform, x: seq<string>, y: seq<string>, files: map<string, Bytes>)
    ensures FileEntries(p, x + y, files) == FileEntries(p, x, files) + FileEntries(p, y, files)
  {
    if x == [] {
      assert x + y == y;
    } else {
      assert (x + y)[1..] == x[1..] + y;
      FileEntriesConcat(p, x[1..], y, files);
    }
  }

  lemma StepEntry(p: Platform, files: map<string, Bytes>)
    ensures FileEntries(p, ["model.step"], files)
         == if "model.step" in files then [EntryOf(p, "model.step", files["model.step"])] else []
  {
    var names := ["model.step"];
    assert FileEntries(p, names[1..], files) == [];
    assert names[0] == "model.step";
    assert !EndsWith("model.step", ".txt") by { assert "model.step"[6..][0] == 's' && ".txt"[0] == '.'; }
  }

  lemma OneOutput(entry: FileEntry, root: string)
    ensures Outputs([entry], root)
         == if entry.name == "model.step"
            then [Obj(EntryFields(entry)["relative_path" := Str(root + "/" + entry.name)])]
            else []
  {
    assert Outputs([entry][1..], root) == [];
  }

  /** The output list names the STEP file with the digest and size of its unchanged bytes, and nothing else. */
  lemma EvidenceOutputs(p: Platform, files: map<string, Bytes>, stderr: string, root: string)
    ensures Outputs(EvidenceEntries(p, files, stderr), root)
         == if "model.step" in files then [Obj(StepFields(p, files["model.step"], root))] else []
  {
    var texts, step := ["stdout.txt", "stderr.txt"], ["model.step"];
    var launcher := LauncherEntries(p, stderr);
    assert EVIDENCE_NAMES == texts + step;
    FileEntriesConcat(p, texts, step, files);
    assert "stdout.txt"[0] == 's' && "stderr.txt"[0] == 's' && "model.step"[0] == 'm'
           && "launcher_stderr.txt"[0] == 'l';
    FileOutputs(p, texts, files, root);
    OutputsConcat(FileEntries(p, EVIDENCE_NAMES, files), launcher, root);
    OutputsConcat(FileEntries(p, texts, files), FileEntries(p, step, files), root);
    StepEntry(p, files);
    assert Outputs(launcher, root) == [] by {
      if launcher != [] { OneOutput(launcher[0], root); assert launcher == [launcher[0]]; }
    }
    hide FileEntries, LauncherEntries, EntryFields;
    if "model.step" in files {
      OneOutput(EntryOf(p, "model.step", files["model.step"]), root);
    }
    hide Outputs;
  }

  // ------------------------------------------------- the evidence directory

  lemma {:induction false} EntriesDescribe(p: Platform, names: seq<string>, files: map<string, Bytes>, e: FileEntry)
    ensures e in FileEntries(p, names, files) <==>
            e.name in names && e.name in files && e == EntryOf(p, e.name, Stored(p, e.name, files[e.name]))
  {
    hide Stored;
    if names != [] {
      EntriesDescribe(p, names[1..], files, e);
      assert names == [names[0]] + names[1..];
    }
  }

  lemma {:induction false} KeptAre(p: Platform, names: seq<string>, files: map<string, Bytes>, name: string)
    ensures Get(KeptFiles(p, names, files), name)
         == if name in names && name in files then Some(Stored(p, name, files[name])) else None
  {
    hide Stored;
    if names != [] {
      KeptAre(p, names[..|names| - 1], files, name);
      assert names == names[..|names| - 1] + [names[|names| - 1]];
    }
  }

  const CORE_NAMES := ["source.py", "parameters.json", "observation.json", "evidence_manifest.json"]

  lemma FileNamesDiffer()
    ensures forall k | k in EVIDENCE_NAMES :: k !in CORE_NAMES && k != "launcher_stderr.txt"
    ensures "launcher_stderr.txt" !in CORE_NAMES
    ensures forall i, j | 0 <= i < j < 4 :: CORE_NAMES[i] != CORE_NAMES[j]
  {
    assert |EVIDENCE_NAMES| == 3 && |CORE_NAMES| == 4;
    assert EVIDENCE_NAMES[0][..2] == "st" && EVIDENCE_NAMES[1][..2] == "st" && EVIDENCE_NAMES[2][..2] == "mo";
    assert CORE_NAMES[0][..2] == "so" && CORE_NAMES[1][..2] == "pa" && CORE_NAMES[2][..2] == "ob"
           && CORE_NAMES[3][..2] == "ev" && "launcher_stderr.txt"[..2] == "la";
  }

  ghost predicate Describes(p: Platform, e: FileEntry, directory: map<string, Bytes>) {
    e.name in directory && e.sha256 == p.hash(directory[e.name]) && e.size == |directory[e.name]|
  }

  lemma DirectoryHolds(p: Platform, run: Run, worker: map<string, Value>, files: map<string, Bytes>, stderr: string,
                       manifest: Value, name: string)
    ensures var directory, core := DirectoryOf(p, run, worker, files, stderr, manifest), CoreFiles(p, run, worker);
            Get(directory, name)
            == if name == "evidence_manifest.json" then Some(p.dump(manifest) + NEWLINE)
               else if name in core then Some(core[name])
               else if name in LauncherFile(p, stderr) then Some(LauncherFile(p, stderr)[name])
               else if name in EVIDENCE_NAMES && name in files then Some(Stored(p, name, files[name]))
               else None
  {
    hide Stored, Truncated;
    FileNamesDiffer();
    KeptAre(p, EVIDENCE_NAMES, files, name);
    assert CoreFiles(p, run, worker).Keys == {CORE_NAMES[0], CORE_NAMES[1], CORE_NAMES[2]};
    hide KeptFiles, CoreFiles;
  }

  /** Every listed file lies in the evidence directory with the recorded digest and size. */
  lemma EvidenceDescribesFiles(p: Platform, run: Run, worker: map<string, Value>, files: map<string, Bytes>,
                               stderr: string, e: FileEntry)
    requires e in EvidenceEntries(p, files, stderr)
    ensures Describes(p, e, EvidenceOf(p, run, worker, files, stderr).directory)
  {
    hide Stored, Truncated, EvidenceRecord, Manifest;
    FileNamesDiffer();
    var manifest := Manifest(p, run, Obj(worker), EvidenceEntries(p, files, stderr));
    DirectoryHolds(p, run, worker, files, stderr, manifest, e.name);
    EntriesDescribe(p, EVIDENCE_NAMES, files, e);
    hide FileEntries, DirectoryOf;
    assert CoreFiles(p, run, worker).Keys == {CORE_NAMES[0], CORE_NAMES[1], CORE_NAMES[2]};
    if e in LauncherEntries(p, stderr) {
      assert e.name == "launcher_stderr.txt";
    } else {
      assert e.name in EVIDENCE_NAMES;
    }
  }

  /** Nothing but the four own files and the listed ones is in the directory. */
  lemma EvidenceDirectoryExactly(p: Platform, run: Run, worker: map<string, Value>, files: map<string, Bytes>,
                                 stderr: string, name: string)
    ensures name in EvidenceOf(p, run, worker, files, stderr).directory <==>
            name in CORE_NAMES || exists e :: e in EvidenceEntries(p, files, stderr) && e.name == name
  {
    hide Stored, Truncated, Sanitized, Outputs, Manifest, EvidenceRecord;
    var manifest := Manifest(p, run, Obj(worker), EvidenceEntries(p, files, stderr));
    DirectoryHolds(p, run, worker, files, stderr, manifest, name);
    assert CORE_NAMES[0] == "source.py" && CORE_NAMES[1] == "parameters.json" && CORE_NAMES[2] == "observation.json"
           && CORE_NAMES[3] == "evidence_manifest.json" && |CORE_NAMES| == 4;
    EntryNames(p, files, stderr, name);
    hide DirectoryOf, EvidenceEntries;
  }

  /** The hashes of the record are those of the source file and of the parameters beside it. */
  lemma EvidenceHashes(p: Platform, run: Run, worker: map<string, Value>, files: map<string, Bytes>, stderr: string)
    requires run.request.source.Str?
    ensures var evidence := EvidenceOf(p, run, worker, files, stderr);
            && evidence.record.Obj?
            && Get(evidence.directory, "source.py") == Some(p.encode(run.request.source.s))
            && Get(evidence.record.fields, "source_hash") == Some(Str(p.hash(p.encode(run.request.source.s))))
            && Get(evidence.directory, "parameters.json") == Some(p.canonical(run.request.parameters) + NEWLINE)
            && Get(evidence.record.fields, "parameters_hash")
               == Some(Str(p.hash(p.canonical(run.request.parameters))))
  {
    hide Stored, Truncated, Sanitized, Outputs, Manifest, OrEmpty, EvidenceRoot;
    FileNamesDiffer();
    var entries := EvidenceEntries(p, files, stderr);
    var manifest := Manifest(p, run, Obj(worker), entries);
    DirectoryHolds(p, run, worker, files, stderr, manifest, "source.py");
    DirectoryHolds(p, run, worker, files, stderr, manifest, "parameters.json");
    assert CORE_NAMES[0] != CORE_NAMES[3] && CORE_NAMES[1] != CORE_NAMES[3];
    RecordHashes(p, run, worker, entries);
    hide DirectoryOf, EvidenceEntries, EvidenceRecord;
  }

  lemma RecordHashes(p: Platform, run: Run, worker: map<string, Value>, entries: seq<FileEntry>)
    ensures var record := EvidenceRecord(p, run, worker, entries);
            && record.Obj?
            && Get(record.fields, "source_hash") == Some(Str(SourceHash(p, run.request)))
            && Get(record.fields, "parameters_hash") == Some(Str(p.hash(p.canonical(run.request.parameters))))
  {
    hide Sanitized, Outputs, OrEmpty, EvidenceRoot, SourceHash;
  }

  lemma EntryNames(p: Platform, files: map<string, Bytes>, stderr: string, name: string)
    ensures (exists e :: e in EvidenceEntries(p, files, stderr) && e.name == name) <==>
            (name in EVIDENCE_NAMES && name in files) || name in LauncherFile(p, stderr)
  {
    hide Stored, Truncated;
    var entries := EvidenceEntries(p, files, stderr);
    if e :| e in entries && e.name == name {
      EntriesDescribe(p, EVIDENCE_NAMES, files, e);
    }
    if name in EVIDENCE_NAMES && name in files {
      var e := EntryOf(p, name, Stored(p, name, files[name]));
      EntriesDescribe(p, EVIDENCE_NAMES, files, e);
      assert e in entries;
    }
    hide FileEntries;
    if name in LauncherFile(p, stderr) {
      assert LauncherEntries(p, stderr)[0] in entries;
    }
  }

  // ---------------------------------------------------------- the main results

  lemma RecordEvidence(p: Platform, run: Run, worker: map<string, Value>, entries: seq<FileEntry>)
    ensures var record, clean := EvidenceRecord(p, run, worker, entries), Sanitized(p, Obj(worker)).fields;
            && record.Obj?
            && Get(record.fields, "geometry") == Some(OrEmpty(Get(clean, "geometry")))
            && Get(record.fields, "step_reimport") == Some(OrEmpty(Get(clean, "step_reimport")))
            && Get(record.fields, "outputs") == Some(Arr(Outputs(entries, EvidenceRoot(run))))
  {
    hide EvidenceRoot, Outputs, OrEmpty, Sanitized;
  }

  lemma RecordIdentity(p: Platform, run: Run, worker: map<string, Value>, entries: seq<FileEntry>)
    ensures var record := EvidenceRecord(p, run, worker, entries);
            && record.Obj?
            && Get(record.fields, "candidate_id") == Some(Str(run.request.candidateId))
            && TextField(record.fields, "source_hash") && TextField(record.fields, "parameters_hash")
  {
    hide EvidenceRoot, Outputs, OrEmpty, Sanitized;
  }

  lemma RecordDigests(p: Platform, run: Run, worker: map<string, Value>, entries: seq<FileEntry>)
    ensures var record := EvidenceRecord(p, run, worker, entries);
            && record.Obj?
            && TextField(record.fields, "profile_digest") && TextField(record.fields, "toolchain_digest")
  {
    hide EvidenceRoot, Outputs, OrEmpty, Sanitized;
  }

  lemma RecordTrust(p: Platform, run: Run, worker: map<string, Value>, entries: seq<FileEntry>)
    ensures var record := EvidenceRecord(p, run, worker, entries);
            && record.Obj?
            && Get(record.fields, "reviewable") == Some(Bool(false))
            && Get(record.fields, "accepted") == Some(Bool(false))
            && Get(record.fields, "deliverable") == Some(Bool(false))
  {
    hide EvidenceRoot, Outputs, OrEmpty, Sanitized;
  }

  lemma RecordFields(p: Platform, run: Run, worker: map<string, Value>, entries: seq<FileEntry>)
    ensures var record, clean := EvidenceRecord(p, run, worker, entries), Sanitized(p, Obj(worker)).fields;
            && record.Obj?
            && Get(record.fields, "geometry") == Some(OrEmpty(Get(clean, "geometry")))
            && Get(record.fields, "step_reimport") == Some(OrEmpty(Get(clean, "step_reimport")))
            && Get(record.fields, "outputs") == Some(Arr(Outputs(entries, EvidenceRoot(run))))
            && Get(record.fields, "candidate_id") == Some(Str(run.request.candidateId))
            && TextField(record.fields, "source_hash") && TextField(record.fields, "parameters_hash")
            && TextField(record.fields, "profile_digest") && TextField(record.fields, "toolchain_digest")
            && Get(record.fields, "reviewable") == Some(Bool(false))
            && Get(record.fields, "accepted") == Some(Bool(false))
            && Get(record.fields, "deliverable") == Some(Bool(false))
  {
    hide EvidenceRecord, EvidenceRoot, Outputs, OrEmpty, Sanitized;
    RecordEvidence(p, run, worker, entries);
    RecordIdentity(p, run, worker, entries);
    RecordDigests(p, run, worker, entries);
    RecordTrust(p, run, worker, entries);
  }

  lemma StepRecordPasses(p: Platform, step: Bytes, root: string)
    requires step != []
    ensures StepRecordOk(Obj(StepFields(p, step, root)))
  {
  }

  lemma RecordPasses(r: map<string, Value>, geometry: map<string, Value>, reimport: map<string, Value>,
                     imported: map<string, Value>, step: Value)
    requires Get(r, "geometry") == Some(Obj(geometry)) && Get(r, "step_reimport") == Some(Obj(reimport))
    requires Get(reimport, "geometry") == Some(Obj(imported)) && Flag(reimport, "valid")
    requires Flag(geometry, "valid") && Flag(imported, "valid")
    requires "solid_count" in geometry && "solid_count" in imported
    requires Whole(geometry["solid_count"]).Some? && Whole(geometry["solid_count"]).value >= 1
    requires Whole(imported["solid_count"]) == Whole(geometry["solid_count"])
    requires Get(r, "outputs") == Some(Arr([step])) && StepRecordOk(step)
    requires TextField(r, "source_hash") && TextField(r, "parameters_hash")
    requires TextField(r, "profile_digest") && TextField(r, "toolchain_digest")
    ensures ValidReimport(Obj(r))
  {
    hide StepRecordOk;
  }

  /** The broker's evidence record of an accepted, successful archive passes the Episode's own check. */
  lemma SuccessfulEvidenceReimports(p: Platform, run: Run, work: Work, stderr: string)
    requires Flag(work.observation, "success") && ReimportOk(p, work.observation)
    requires "model.step" in work.files && work.files["model.step"] != []
    ensures ValidReimport(EvidenceOf(p, run, work.observation, work.files, stderr).record)
  {
    var entries := EvidenceEntries(p, work.files, stderr);
    var record := EvidenceRecord(p, run, work.observation, entries);
    var clean := Sanitized(p, Obj(work.observation)).fields;
    EvidenceOutputs(p, work.files, stderr, EvidenceRoot(run));
    SanitizedKeepsReimport(p, work.observation);
    RecordFields(p, run, work.observation, entries);
    StepRecordPasses(p, work.files["model.step"], EvidenceRoot(run));
    hide EvidenceRecord, EvidenceEntries, Outputs, Sanitized, Positive, Manifest, DirectoryOf, StepRecordOk;
    hide EvidenceRoot, StepFields, ValidReimport, Whole;
    RecordPasses(record.fields, clean["geometry"].fields, clean["step_reimport"].fields,
                 clean["step_reimport"].fields["geometry"].fields,
                 Obj(StepFields(p, work.files["model.step"], EvidenceRoot(run))));
  }

  ghost predicate Completes(inv: Invocation, run: Run) {
    && inv.reply.Observed?
    && ValidReimport(inv.reply.observation.output)
    && Get(inv.reply.observation.output.fields, "candidate_id") == Some(Str(run.request.candidateId))
    && inv.reply.observation.executionId == Some(run.executionId)
    && |inv.manifests| == 1 && inv.manifests[0].Obj?
    && Get(inv.manifests[0].fields, "trust_role") == Some(Str("candidate"))
  }

  /** The observation of a run: a failure offers no output, a success completes, and nothing is publishable. */
  ghost predicate Answer(inv: Invocation, run: Run)
    requires inv.reply.Observed?
  {
    var o := inv.reply.observation;
    && o.sideEffect && NotPublishable(o.output)
    && (o.success ==> Completes(inv, run))
    && (!o.success ==> NoOutputs(o.output))
  }

  ghost predicate SourceHashed(inv: Invocation) {
    && inv.reply.Observed? && inv.reply.observation.output.Obj?
    && TextField(inv.reply.observation.output.fields, "source_hash")
  }

  ghost predicate SourceHashNull(inv: Invocation) {
    && inv.reply.Observed? && inv.reply.observation.output.Obj?
    && Get(inv.reply.observation.output.fields, "source_hash") == Some(Null)
  }

  lemma FailedCallShape(p: Platform, run: Run, kind: string, code: string, exitState: string, workerExit: string,
                        stderr: string, persistFails: bool, parametersHash: Option<string>)
    ensures var inv := Failed(p, run, kind, code, exitState, workerExit, stderr, persistFails,
                              UnpersistedRecord(run.request, parametersHash));
            && inv.reply.Observed? && !inv.reply.observation.success && Answer(inv, run)
            && inv.calls == [run.request] && |inv.manifests| == (if persistFails then 0 else 1)
            && (SourceHashed(inv) <==> !persistFails) && (SourceHashNull(inv) <==> persistFails)
  {
    hide Sanitized, EvidenceEntries, Manifest, EvidenceRecord, DirectoryOf, ValidReimport, Outputs, EvidenceRoot;
    EvidenceOutputs(p, map[], stderr, EvidenceRoot(run));
    RecordFields(p, run, FailedWorker(kind, code, workerExit), EvidenceEntries(p, map[], stderr));
  }

  /** Python values of a type that cannot be iterated, and that do not count as false. */
  predicate NotIterable(v: Value) {
    v == Bool(true) || (v.Int? && v.i != 0) || (v.Float? && v.r != 0.0)
  }

  lemma CodesExactly(p: Platform, v: Option<Value>)
    ensures CodesOf(p, v).None? <==> v.Some? && NotIterable(v.value)
  {
  }

  lemma AcceptedCallShape(p: Platform, run: Run, result: SandboxResult)
    requires CheckArchive(p, result.archive).Accepted?
    ensures var work := CheckArchive(p, result.archive).work;
            var inv := WithArchive(p, run, result, work);
            && inv.calls == [run.request] && |inv.manifests| == 1
            && (inv.reply.Observed? ==> Answer(inv, run) && SourceHashed(inv))
            && inv.reply != Failure(OverflowError) && inv.reply != Failure(RecursionError)
            && (inv.reply == Failure(TypeError) <==>
                "codes" in work.observation && NotIterable(work.observation["codes"]))
  {
    hide CheckArchive, Sanitized, Outputs, EvidenceEntries, EvidenceRoot, EvidenceRecord, Manifest, ReimportOk;
    hide ValidReimport, DirectoryOf, CodesOf, NotIterable;
    var work := CheckArchive(p, result.archive).work;
    var entries := EvidenceEntries(p, work.files, result.stderr);
    CodesExactly(p, Get(work.observation, "codes"));
    AcceptedWork(p, result.archive);
    EvidenceOutputs(p, work.files, result.stderr, EvidenceRoot(run));
    RecordFields(p, run, work.observation, entries);
    ManifestRole(p, run, work.observation, entries);
    if Flag(work.observation, "success") {
      SuccessfulEvidenceReimports(p, run, work, result.stderr);
    }
  }

  /** An accepted archive holds a product exactly when the worker claims success, and then complete evidence of it. */
  lemma AcceptedWork(p: Platform, archive: Archive)
    requires CheckArchive(p, archive).Accepted?
    ensures var work := CheckArchive(p, archive).work;
            && (Flag(work.observation, "success") <==> "model.step" in work.files)
            && (Flag(work.observation, "success") ==>
                  ReimportOk(p, work.observation) && 0 < |work.files["model.step"]| <= OUTPUT_BYTES)
  {
    hide ReimportOk, Readable;
    ArchiveAcceptedExactly(p, archive);
    assert Get(CheckArchive(p, archive).work.files, "model.step") == Named(archive.members.value, "model.step");
  }

  lemma ManifestRole(p: Platform, run: Run, worker: map<string, Value>, entries: seq<FileEntry>)
    ensures var manifest := Manifest(p, run, Obj(worker), entries);
            && manifest.Obj?
            && Get(manifest.fields, "trust_role")
               == Some(Str(if Flag(worker, "success") then "candidate" else "diagnostic"))
  {
    hide Sanitized, SourceHash, EntryValues;
  }

  lemma ManifestTrust(p: Platform, run: Run, worker: map<string, Value>, entries: seq<FileEntry>)
    ensures NotPublishable(Manifest(p, run, Obj(worker), entries))
  {
    hide Sanitized, SourceHash, EntryValues;
  }

  /** The archive is accepted, its evidence written, and only then its codes turn out not to be a list. */
  ghost predicate RaisesType(p: Platform, outcome: Outcome, w: World) {
    var result := ResultOf(outcome);
    && result.archive.size != 0 && !w.persistFails && CheckArchive(p, result.archive).Accepted?
    && var o := CheckArchive(p, result.archive).work.observation;
       "codes" in o && NotIterable(o["codes"])
  }

  ghost predicate RaisesOverflow(p: Platform, outcome: Outcome) {
    ResultOf(outcome).archive.size != 0 && Overflowing(p, ResultOf(outcome).archive)
  }

  ghost predicate RaisesRecursion(p: Platform, outcome: Outcome) {
    ResultOf(outcome).archive.size != 0 && TooNested(p, ResultOf(outcome).archive)
  }

  /** No evidence could be written, neither the worker's nor that of the protocol error. */
  ghost predicate Unpersisted(p: Platform, outcome: Outcome, w: World) {
    var result := ResultOf(outcome);
    if result.archive.size == 0 then w.persistFails
    else
      && w.fallbackFails && !Overflowing(p, result.archive) && !TooNested(p, result.archive)
      && (Acceptable(p, result.archive) ==> w.persistFails)
  }

  /**
   * Every way through the sandbox: the executor ran once; the call raises exactly on the three kinds of archive above;
   * otherwise it answers, and without a source hash exactly when no evidence could be written.
   */
  lemma ExecutionShape(p: Platform, run: Run, outcome: Outcome, w: World)
    ensures var inv := Execution(p, run, outcome, w);
            && inv.calls == [run.request] && |inv.manifests| <= 1
            && (inv.reply.Observed? ==> Answer(inv, run))
            && (inv.reply == Failure(TypeError) <==> RaisesType(p, outcome, w))
            && (inv.reply == Failure(OverflowError) <==> RaisesOverflow(p, outcome))
            && (inv.reply == Failure(RecursionError) <==> RaisesRecursion(p, outcome))
            && (SourceHashNull(inv) <==> Unpersisted(p, outcome, w))
            && (inv.reply.Observed? ==> SourceHashed(inv) || SourceHashNull(inv))
            && (!inv.reply.Observed? ==> !SourceHashNull(inv))
  {
    hide Failed, WithArchive, CheckArchive, Acceptable, Overflowing, TooNested, NotIterable, Answer;
    var result := ResultOf(outcome);
    ArchiveAcceptedExactly(p, result.archive);
    if result.archive.size == 0 {
      var code := if result.codes != [] then result.codes[0] else "sandbox_protocol_error";
      FailedCallShape(p, run, "model_program_execution_failed", code, result.exitState, result.exitState, result.stderr,
                      w.persistFails, Some(p.hash(p.canonical(run.request.parameters))));
    } else if CheckArchive(p, result.archive).Escaped? {
      match CheckArchive(p, result.archive).error
      case TypeError =>
      case OverflowError =>
      case RecursionError =>
    } else if CheckArchive(p, result.archive).Refused? || w.persistFails {
      FailedCallShape(p, run, "sandbox_protocol_error", "sandbox_protocol_error", "invalid_archive", "invalid_archive",
                      result.stderr, w.fallbackFails, None);
    } else {
      AcceptedCallShape(p, run, result);
    }
  }

  /** What the executor was given had passed every gate. */
  ghost predicate Gated(c: Config, p: Platform, toolId: string, skill: string, payload: Value,
                        context: Option<Context>, request: Request)
  {
    && toolId == MODEL_PROGRAM_TOOL && skill == "model_program" && c.available && context.Some?
    && c.executor.Some? && c.executor.value.attestation.Some?
    && Some(c.executor.value.attestation.value.digest) == c.capabilityDigest
    && payload.Obj? && RequestOf(p, payload.fields) == Some(request)
    && request.apiId == Str(API_ID) && request.source.Str? && p.policy(request.source.s) == Some([])
  }

  /** The observation says that a side effect started. */
  predicate Started(inv: Invocation) {
    inv.reply.Observed? && inv.reply.observation.sideEffect
  }

  lemma AdmittedIsGated(c: Config, p: Platform, w: World, payload: map<string, Value>, context: Option<Context>)
    requires c.available && Admission(c, p, w, payload, context).Ok?
    ensures Gated(c, p, MODEL_PROGRAM_TOOL, "model_program", Obj(payload), context,
                  Admission(c, p, w, payload, context).value.request)
  {
    hide RequestOf, Blocked, SourceRefused;
  }

  lemma AdmissionShape(c: Config, p: Platform, w: World, payload: map<string, Value>, context: Option<Context>)
    requires c.available
    ensures match Admission(c, p, w, payload, context)
            case Ok(run) =>
              Gated(c, p, MODEL_PROGRAM_TOOL, "model_program", Obj(payload), context, run.request)
            case Err(inv) => Refusal(inv)
  {
    var admission := Admission(c, p, w, payload, context);
    if admission.Ok? {
      AdmittedIsGated(c, p, w, payload, context);
    } else {
      RefusedIsRefusal(c, p, w, payload, context);
    }
  }

  /** The policy found violations in an otherwise well-formed request. */
  ghost predicate PolicyRefuses(c: Config, p: Platform, payload: map<string, Value>, context: Option<Context>) {
    && c.executor.Some? && context.Some?
    && RequestOf(p, payload).Some? && RequestOf(p, payload).value.apiId == Str(API_ID)
    && var codes := PolicyCodes(p, RequestOf(p, payload).value.source);
       codes.Some? && codes.value != []
  }

  lemma RefusedIsRefusal(c: Config, p: Platform, w: World, payload: map<string, Value>, context: Option<Context>)
    requires Admission(c, p, w, payload, context).Err?
    ensures Refusal(Admission(c, p, w, payload, context).error)
    ensures SourceHashNull(Admission(c, p, w, payload, context).error) <==> PolicyRefuses(c, p, payload, context)
  {
    hide RequestOf;
  }

  lemma AdmittedIsAccepted(c: Config, p: Platform, w: World, payload: map<string, Value>, context: Option<Context>)
    requires Admission(c, p, w, payload, context).Ok?
    ensures c.executor.Some? && !PolicyRefuses(c, p, payload, context)
  {
    hide RequestOf, Blocked, SourceRefused;
  }

  lemma ExecutorCallShape(c: Config, p: Platform, w: World, payload: map<string, Value>, context: Option<Context>)
    requires c.available
    ensures var inv := ExecutorCall(c, p, w, payload, context);
            && |inv.calls| <= 1 && |inv.manifests| <= |inv.calls|
            && (Started(inv) <==> inv.calls != [] && inv.reply.Observed?)
            && (!inv.reply.Observed? ==> inv.calls != [])
            && (inv.calls != [] ==>
                  Gated(c, p, MODEL_PROGRAM_TOOL, "model_program", Obj(payload), context, inv.calls[0]))
            && (inv.reply.Observed? ==> Reported(inv))
  {
    hide ValidReimport, RaisesType, RaisesOverflow, RaisesRecursion, Unpersisted, SourceHashNull, SourceHashed;
    hide Execution;
    AdmissionShape(c, p, w, payload, context);
    hide Gated, Admission;
    var admission := Admission(c, p, w, payload, context);
    if admission.Ok? {
      ExecutionShape(p, admission.value, if c.executor.Some? then c.executor.value.outcome else NotAResult, w);
    }
  }

  /** A failure offers no output; a success came from the executor and carries complete evidence of that candidate. */
  ghost predicate Reported(inv: Invocation)
    requires inv.reply.Observed?
  {
    var o := inv.reply.observation;
    && NotPublishable(o.output)
    && (!o.success ==> NoOutputs(o.output))
    && (o.success ==>
          && inv.calls != [] && ValidReimport(o.output)
          && Get(o.output.fields, "candidate_id") == Some(Str(inv.calls[0].candidateId)))
  }

  /**
   * One call of any tool: the executor runs at most once, nothing reaches it ungated, and a side effect is reported
   * exactly when it ran and the call answered; a call that raises had run it. For the model-program tool failures
   * offer no output and no answer is publishable.
   */
  lemma InvocationSafe(
      c: Config, p: Platform, w: World, toolId: string, skill: string, payload: Value, context: Option<Context>)
    requires Forbidden.Enumerates(p.order)
    ensures var inv := Invoke(c, p, w, toolId, skill, payload, context);
            && |inv.calls| <= 1 && |inv.manifests| <= |inv.calls|
            && (Started(inv) <==> inv.calls != [] && inv.reply.Observed?)
            && (!inv.reply.Observed? ==> inv.calls != [])
            && (inv.calls != [] ==> Gated(c, p, toolId, skill, payload, context, inv.calls[0]))
            && (toolId == MODEL_PROGRAM_TOOL && inv.reply.Observed? && !inv.reply.observation.success ==>
                  NoOutputs(inv.reply.observation.output))
            && (toolId == MODEL_PROGRAM_TOOL && inv.reply.Observed? ==> NotPublishable(inv.reply.observation.output))
  {
    hide ExecutorCall, Gated, SourceCall, ContractCall, Blocked, Unavailable, NoOutputs, NotPublishable, ValidReimport;
    ModelProgramSkill(skill);
    hide Registered, AllowedSkills;
    if Registered(toolId) && skill in AllowedSkills(toolId) && payload.Obj? {
      if toolId != MODEL_PROGRAM_TOOL {
        QuietCalls(p, payload);
      } else if c.available {
        ExecutorCallShape(c, p, w, payload.fields, context);
      }
    }
  }

  lemma ModelProgramSkill(skill: string)
    ensures skill in AllowedSkills(MODEL_PROGRAM_TOOL) <==> skill == "model_program"
  {
  }

  lemma QuietCalls(p: Platform, payload: Value)
    requires Forbidden.Enumerates(p.order)
    ensures payload.Obj? ==>
              var source, contract := SourceCall(p, payload.fields), ContractCall(p, payload.fields);
              && source.reply.Observed? && !source.reply.observation.sideEffect && source.calls == []
              && source.manifests == []
              && contract.reply.Observed? && !contract.reply.observation.sideEffect && contract.calls == []
              && contract.manifests == []
  {
  }

  /** The gates of the broker itself, before those of the executor path. */
  ghost predicate Reaches(c: Config, toolId: string, skill: string, payload: Value) {
    toolId == MODEL_PROGRAM_TOOL && skill == "model_program" && payload.Obj? && c.available
  }

  lemma ModelToolRoutes(c: Config, p: Platform, w: World, skill: string, payload: Value, context: Option<Context>)
    requires Forbidden.Enumerates(p.order)
    ensures var inv := Invoke(c, p, w, MODEL_PROGRAM_TOOL, skill, payload, context);
            if Reaches(c, MODEL_PROGRAM_TOOL, skill, payload) then
              inv == ExecutorCall(c, p, w, payload.fields, context)
            else inv.reply.Observed? && !SourceHashNull(inv)
  {
    hide ExecutorCall, SourceCall, ContractCall;
  }

  lemma OtherToolsAnswer(
      c: Config, p: Platform, w: World, toolId: string, skill: string, payload: Value, context: Option<Context>)
    requires Forbidden.Enumerates(p.order) && toolId != MODEL_PROGRAM_TOOL
    ensures Invoke(c, p, w, toolId, skill, payload, context).reply.Observed?
  {
    hide ExecutorCall, SourceCall, ContractCall, Blocked, AllowedSkills;
    QuietCalls(p, payload);
  }

  /** A call of any tool raises exactly when an admitted run brings back one of the three kinds of archive. */
  lemma CallRaisesExactly(
      c: Config, p: Platform, w: World, toolId: string, skill: string, payload: Value, context: Option<Context>)
    requires Forbidden.Enumerates(p.order)
    ensures var inv := Invoke(c, p, w, toolId, skill, payload, context);
            && (inv.reply == Failure(TypeError) <==>
                && Reaches(c, toolId, skill, payload) && Admission(c, p, w, payload.fields, context).Ok?
                && c.executor.Some? && RaisesType(p, c.executor.value.outcome, w))
            && (inv.reply == Failure(OverflowError) <==>
                && Reaches(c, toolId, skill, payload) && Admission(c, p, w, payload.fields, context).Ok?
                && c.executor.Some? && RaisesOverflow(p, c.executor.value.outcome))
            && (inv.reply == Failure(RecursionError) <==>
                && Reaches(c, toolId, skill, payload) && Admission(c, p, w, payload.fields, context).Ok?
                && c.executor.Some? && RaisesRecursion(p, c.executor.value.outcome))
  {
    hide Invoke, Execution, Admission, RaisesType, RaisesOverflow, RaisesRecursion, Unpersisted, PolicyRefuses;
    hide SourceHashNull;
    if toolId == MODEL_PROGRAM_TOOL {
      ModelToolRoutes(c, p, w, skill, payload, context);
    } else {
      OtherToolsAnswer(c, p, w, toolId, skill, payload, context);
    }
    if Reaches(c, toolId, skill, payload) {
      var admission := Admission(c, p, w, payload.fields, context);
      if admission.Ok? {
        AdmittedIsAccepted(c, p, w, payload.fields, context);
        ExecutionShape(p, admission.value, c.executor.value.outcome, w);
      } else {
        RefusedIsRefusal(c, p, w, payload.fields, context);
      }
    }
  }

  /** The model-program tool answers with a null source hash exactly on a policy refusal or an unwritten execution. */
  lemma SourceHashNullExactly(
      c: Config, p: Platform, w: World, skill: string, payload: Value, context: Option<Context>)
    requires Forbidden.Enumerates(p.order)
    ensures SourceHashNull(Invoke(c, p, w, MODEL_PROGRAM_TOOL, skill, payload, context)) <==>
            && Reaches(c, MODEL_PROGRAM_TOOL, skill, payload)
            && if PolicyRefuses(c, p, payload.fields, context) then true
               else Admission(c, p, w, payload.fields, context).Ok? && c.executor.Some?
                    && Unpersisted(p, c.executor.value.outcome, w)
  {
    hide Invoke, Execution, Admission, RaisesType, RaisesOverflow, RaisesRecursion, Unpersisted, PolicyRefuses;
    hide SourceHashNull;
    ModelToolRoutes(c, p, w, skill, payload, context);
    if Reaches(c, MODEL_PROGRAM_TOOL, skill, payload) {
      var admission := Admission(c, p, w, payload.fields, context);
      if admission.Ok? {
        AdmittedIsAccepted(c, p, w, payload.fields, context);
        ExecutionShape(p, admission.value, c.executor.value.outcome, w);
      } else {
        RefusedIsRefusal(c, p, w, payload.fields, context);
      }
    }
  }

  // -------------------------------------------------------- the two raising archives

  /** An archive of these files, in this order. */
  function Packed(names: seq<string>, contents: seq<Bytes>): Archive
    requires |names| == |contents|
  {
    Archive(1, Some(seq(|names|, i requires 0 <= i < |names| =>
                          Member(names[i], true, |contents[i]|, Some(contents[i])))))
  }

  const CODES_FIVE: map<string, Value> := map["schema_version" := Int(1), "success" := Bool(false), "codes" := Int(5)]

  /** Any admitted call can meet a failed worker whose codes are a number: it ran, and the call raises. */
  lemma NumericCodesRaise(
      c: Config, p: Platform, w: World, payload: map<string, Value>, context: Option<Context>, report: Bytes,
      result: SandboxResult)
    requires Forbidden.Enumerates(p.order) && c.available && Admission(c, p, w, payload, context).Ok?
    requires p.parse(report) == Parsed(Obj(CODES_FIVE)) && |report| <= OUTPUT_BYTES && !w.persistFails
    requires result.archive == Packed(["observation.json"], [report])
    requires c.executor.Some? && c.executor.value.outcome == Ran(result)
    ensures var inv := Invoke(c, p, w, MODEL_PROGRAM_TOOL, "model_program", Obj(payload), context);
            inv.reply == Failure(TypeError) && |inv.calls| == 1 && !Started(inv)
  {
    hide Admission, Execution, ExecutorCall;
    var members := result.archive.members.value;
    assert |members| == 1 && members[0] == Member("observation.json", true, |report|, Some(report));
    OneFileRead(p, result.archive, report);
    assert RaisesType(p, c.executor.value.outcome, w);
    hide RaisesType;
    CallRaisesExactly(c, p, w, MODEL_PROGRAM_TOOL, "model_program", Obj(payload), context);
    InvocationSafe(c, p, w, MODEL_PROGRAM_TOOL, "model_program", Obj(payload), context);
  }

  /** A successful worker's report whose volume is this integer. */
  function VolumeReport(volume: int): map<string, Value> {
    map["schema_version" := Int(1), "success" := Bool(true),
        "geometry" := Obj(map["valid" := Bool(true), "solid_count" := Int(1), "volume" := Int(volume)]),
        "step_reimport" := Obj(map["valid" := Bool(true), "geometry" := Obj(map[])])]
  }

  lemma LargeVolumeOverflows(p: Platform, volume: int)
    requires !p.fits(volume)
    ensures CheckReimport(p, VolumeReport(volume)).Overflow?
  {
    var o := VolumeReport(volume);
    var g := map["valid" := Bool(true), "solid_count" := Int(1), "volume" := Int(volume)];
    assert o["geometry"] == Obj(g) && o["step_reimport"] == Obj(map["valid" := Bool(true), "geometry" := Obj(map[])]);
    assert CheckPositive(p, Get(g, "volume")) == Overflow;
    assert CheckGeometry(p, g) == Overflow;
    hide CheckGeometry;
    assert ReimportShape(o);
  }

  /** Any admitted call can meet a volume too large to convert: it ran, the call raises, and no evidence is written. */
  lemma LargeVolumeRaises(
      c: Config, p: Platform, w: World, payload: map<string, Value>, context: Option<Context>, report: Bytes,
      volume: int, result: SandboxResult)
    requires Forbidden.Enumerates(p.order) && c.available && Admission(c, p, w, payload, context).Ok?
    requires p.parse(report) == Parsed(Obj(VolumeReport(volume))) && |report| <= OUTPUT_BYTES && !p.fits(volume)
    requires result.archive == Packed(["observation.json", "model.step"], [report, [0]])
    requires c.executor.Some? && c.executor.value.outcome == Ran(result)
    ensures var inv := Invoke(c, p, w, MODEL_PROGRAM_TOOL, "model_program", Obj(payload), context);
            inv.reply == Failure(OverflowError) && |inv.calls| == 1 && !Started(inv)
  {
    hide Admission, Execution, ExecutorCall, Invoke, Reaches, Gated;
    LargeVolumeOverflows(p, volume);
    TwoFilesOverflow(p, result.archive, report, volume);
    assert RaisesOverflow(p, c.executor.value.outcome);
    hide RaisesOverflow;
    CallRaisesExactly(c, p, w, MODEL_PROGRAM_TOOL, "model_program", Obj(payload), context);
    assert Reaches(c, MODEL_PROGRAM_TOOL, "model_program", Obj(payload)) by { ReachesModel(c, payload); }
    InvocationSafe(c, p, w, MODEL_PROGRAM_TOOL, "model_program", Obj(payload), context);
  }

  lemma ReachesModel(c: Config, payload: map<string, Value>)
    requires c.available
    ensures Reaches(c, MODEL_PROGRAM_TOOL, "model_program", Obj(payload))
  {
  }

  lemma TwoFilesOverflow(p: Platform, archive: Archive, report: Bytes, volume: int)
    requires p.parse(report) == Parsed(Obj(VolumeReport(volume))) && |report| <= OUTPUT_BYTES
    requires archive == Packed(["observation.json", "model.step"], [report, [0]])
    requires CheckReimport(p, VolumeReport(volume)).Overflow?
    ensures Overflowing(p, archive)
  {
    hide CheckReimport;
    var members := archive.members.value;
    assert |members| == 2 && members[0] == Member("observation.json", true, |report|, Some(report))
           && members[1] == Member("model.step", true, 1, Some([0]));
    assert "observation.json"[0] != "model.step"[0];
    assert Named(members, "observation.json") == Some(report);
    assert Named(members, "model.step") == Named(members[1..], "model.step") == Some([0]);
    assert WorkerObservationOk(Obj(VolumeReport(volume)));
  }

  lemma OneFileRead(p: Platform, archive: Archive, report: Bytes)
    requires p.parse(report) == Parsed(Obj(CODES_FIVE)) && |report| <= OUTPUT_BYTES
    requires archive == Packed(["observation.json"], [report])
    ensures CheckArchive(p, archive) == Accepted(Work(map["observation.json" := report], CODES_FIVE))
  {
    var members := archive.members.value;
    assert members[0].name == "observation.json" && members[1..] == [];
    assert FilesOf(members, map[]) == FilesOf(members[1..], map["observation.json" := report]);
  }

  /** Every successful model-program observation satisfies the Episode's completion evidence check. */
  lemma SuccessfulObservationCompletes(
      c: Config, p: Platform, w: World, skill: string, payload: Value, context: Option<Context>)
    requires Forbidden.Enumerates(p.order)
    requires var reply := Invoke(c, p, w, MODEL_PROGRAM_TOOL, skill, payload, context).reply;
             reply.Observed? && reply.observation.success
    ensures var o := Invoke(c, p, w, MODEL_PROGRAM_TOOL, skill, payload, context).reply.observation;
            && o.sideEffect && ValidReimport(o.output)
            && payload.Obj? && Get(o.output.fields, "candidate_id") == Get(payload.fields, "candidate_id")
  {
    hide ExecutorCall, ValidReimport;
    if payload.Obj? && c.available {
      ExecutorCallShape(c, p, w, payload.fields, context);
    }
  }

  // ------------------------------------------------------------- logs of calls

  /** One call of the broker, and what came of it. */
  datatype Call = Call(
    config: Config, world: World, toolId: string, skill: string, payload: Value, context: Option<Context>,
    invocation: Invocation)

  ghost predicate Answered(p: Platform, log: seq<Call>, i: nat)
    requires Forbidden.Enumerates(p.order) && i < |log|
  {
    var call := log[i];
    call.invocation == Invoke(call.config, p, call.world, call.toolId, call.skill, call.payload, call.context)
  }

  ghost predicate IsLog(p: Platform, log: seq<Call>) {
    Forbidden.Enumerates(p.order) && forall i: nat | i < |log| :: Answered(p, log, i)
  }

  /** What the caller of the model-program tool may rely on. */
  ghost predicate Trustworthy(call: Call) {
    call.toolId == MODEL_PROGRAM_TOOL && call.invocation.reply.Observed? ==>
      var o := call.invocation.reply.observation;
      && NotPublishable(o.output)
      && (!o.success ==> NoOutputs(o.output))
      && (o.success ==> && o.sideEffect && ValidReimport(o.output) && call.payload.Obj?
                        && Get(o.output.fields, "candidate_id") == Get(call.payload.fields, "candidate_id"))
  }

  predicate CallRaised(call: Call) {
    call.invocation.reply.Failure?
  }

  /** In any log of calls each one runs the executor at most once and says so unless it raises, and can be trusted. */
  lemma EveryCallTrustworthy(p: Platform, log: seq<Call>, i: nat)
    requires IsLog(p, log) && i < |log|
    ensures |log[i].invocation.calls|
         == (if Started(log[i].invocation) then 1 else 0) + (if CallRaised(log[i]) then 1 else 0)
    ensures |log[i].invocation.manifests| <= |log[i].invocation.calls|
    ensures Trustworthy(log[i])
  {
    hide Invoke, ValidReimport, Gated, NotPublishable, NoOutputs;
    var call := log[i];
    assert Answered(p, log, i);
    InvocationSafe(call.config, p, call.world, call.toolId, call.skill, call.payload, call.context);
    if call.toolId == MODEL_PROGRAM_TOOL && call.invocation.reply.Observed?
       && call.invocation.reply.observation.success {
      SuccessfulObservationCompletes(call.config, p, call.world, call.skill, call.payload, call.context);
    }
  }

  function ExecutorRuns(log: seq<Call>): nat {
    if log == [] then 0 else ExecutorRuns(log[..|log| - 1]) + |log[|log| - 1].invocation.calls|
  }

  function ReportedSideEffects(log: seq<Call>): nat {
    if log == [] then 0
    else ReportedSideEffects(log[..|log| - 1]) + (if Started(log[|log| - 1].invocation) then 1 else 0)
  }

  function RaisedCalls(log: seq<Call>): nat {
    if log == [] then 0 else RaisedCalls(log[..|log| - 1]) + (if CallRaised(log[|log| - 1]) then 1 else 0)
  }

  /** Over a whole log the executor runs are the reported side effects and the calls that raised, each counted once. */
  lemma {:induction false} SideEffectsAreExecutorRuns(p: Platform, log: seq<Call>)
    requires IsLog(p, log)
    ensures ExecutorRuns(log) == ReportedSideEffects(log) + RaisedCalls(log)
  {
    hide Started, Invoke;
    if log != [] {
      var before := log[..|log| - 1];
      forall i: nat | i < |before| ensures Answered(p, before, i) { assert Answered(p, log, i); }
      SideEffectsAreExecutorRuns(p, before);
      EveryCallTrustworthy(p, log, |log| - 1);
    }
  }

  lemma {:induction false} NoneRaised(log: seq<Call>)
    ensures RaisedCalls(log) == 0 <==> forall i | 0 <= i < |log| :: !CallRaised(log[i])
  {
    if log != [] {
      var before := log[..|log| - 1];
      NoneRaised(before);
      assert forall i | 0 <= i < |before| :: before[i] == log[i];
    }
  }

  /** So the log reports every executor run exactly when no call raised. */
  lemma EveryRunReportedExactly(p: Platform, log: seq<Call>)
    requires IsLog(p, log)
    ensures ExecutorRuns(log) == ReportedSideEffects(log) <==> forall i | 0 <= i < |log| :: !CallRaised(log[i])
  {
    hide IsLog, CallRaised, ExecutorRuns, ReportedSideEffects, RaisedCalls;
    SideEffectsAreExecutorRuns(p, log);
    NoneRaised(log);
  }

  // -------------------------------------------------- the structured validator

  predicate ContractPayload(payload: Value, contract: Value) {
    && contract.Obj?
    && payload == Obj(map["contract_type" := Str("cad_ir_draft"), "contract" := contract])
  }

  /**
   * On a draft without executable fields the broker passes on the validator's own feedback; the Skill alone
   * decides whether feedback with a Boolean `valid` comes back.
   */
  lemma DraftValidation(c: Config, p: Platform, w: World, skill: string, payload: Value, contract: Value)
    requires Forbidden.Enumerates(p.order) && ContractPayload(payload, contract) && Forbidden.Clear(contract)
    ensures var inv := Invoke(c, p, w, STRUCTURED_CONTRACT_TOOL, skill, payload, None);
            && inv.calls == [] && inv.reply.Observed? && !inv.reply.observation.sideEffect
            && (FeedbackOk(inv.reply.observation.output) <==> skill in AllowedSkills(STRUCTURED_CONTRACT_TOOL))
            && (skill in AllowedSkills(STRUCTURED_CONTRACT_TOOL) ==>
                  && inv.reply.observation.output == FeedbackOf(p, contract)
                  && inv.reply.observation.success == inv.reply.observation.output.fields["valid"].b)
  {
    assert payload.fields.Keys == {"contract_type", "contract"};
    Forbidden.AcceptedIffClear(contract, "", p.order);
  }
}
