/** How the evidence of an execution gets onto disk: staged file by file, renamed when complete, removed otherwise. */
module EvidenceFolder {
  import opened Json
  import opened Strings
  import opened ToolBroker
  import opened ToolBrokerProperties

  /** The folder in which the evidence of an execution is prepared. */
  function StagingOf(executionId: string): string {
    "." + executionId + ".staging"
  }

  /** One round of the file loop, for the entries and for the directory. */
  lemma FileKept(p: Platform, i: nat, files: map<string, Bytes>, entries: seq<FileEntry>, staged: map<string, Bytes>,
                 core: map<string, Bytes>)
    requires i < |EVIDENCE_NAMES|
    requires staged == core + KeptFiles(p, EVIDENCE_NAMES[..i], files)
    ensures var name, rest := EVIDENCE_NAMES[i], FileEntries(p, EVIDENCE_NAMES[i + 1..], files);
            if name in files then
              var stored := Stored(p, name, files[name]);
              && entries + FileEntries(p, EVIDENCE_NAMES[i..], files) == (entries + [EntryOf(p, name, stored)]) + rest
              && core + KeptFiles(p, EVIDENCE_NAMES[..i + 1], files) == staged[name := stored]
            else
              && entries + FileEntries(p, EVIDENCE_NAMES[i..], files) == entries + rest
              && core + KeptFiles(p, EVIDENCE_NAMES[..i + 1], files) == staged
  {
    hide Stored, EntryOf;
    assert EVIDENCE_NAMES[i..][0] == EVIDENCE_NAMES[i] && EVIDENCE_NAMES[i..][1..] == EVIDENCE_NAMES[i + 1..];
    assert EVIDENCE_NAMES[..i + 1][..i] == EVIDENCE_NAMES[..i] && EVIDENCE_NAMES[..i + 1][i] == EVIDENCE_NAMES[i];
  }

  /** No file of the loop was written before. */
  lemma FileIsNew(p: Platform, i: nat, run: Run, worker: map<string, Value>, files: map<string, Bytes>)
    requires i < |EVIDENCE_NAMES|
    ensures EVIDENCE_NAMES[i] !in CoreFiles(p, run, worker) + KeptFiles(p, EVIDENCE_NAMES[..i], files)
  {
    hide Stored;
    FileNamesDiffer();
    var core := CoreFiles(p, run, worker);
    assert core.Keys == {CORE_NAMES[0], CORE_NAMES[1], CORE_NAMES[2]};
    assert EVIDENCE_NAMES[i] in EVIDENCE_NAMES;
    KeptAre(p, EVIDENCE_NAMES[..i], files, EVIDENCE_NAMES[i]);
    assert EVIDENCE_NAMES[0][3] != EVIDENCE_NAMES[1][3] && EVIDENCE_NAMES[0][0] != EVIDENCE_NAMES[2][0];
    assert EVIDENCE_NAMES[1][0] != EVIDENCE_NAMES[2][0];
  }

  /** Nor the launcher's file, nor the manifest. */
  lemma LastAreNew(p: Platform, run: Run, worker: map<string, Value>, files: map<string, Bytes>)
    ensures var staged := CoreFiles(p, run, worker) + KeptFiles(p, EVIDENCE_NAMES, files);
            "launcher_stderr.txt" !in staged && "evidence_manifest.json" !in staged
    ensures "launcher_stderr.txt" != "evidence_manifest.json"
  {
    hide Stored;
    FileNamesDiffer();
    assert CORE_NAMES[3] == "evidence_manifest.json" && CORE_NAMES[3] in CORE_NAMES;
    assert CoreFiles(p, run, worker).Keys == {CORE_NAMES[0], CORE_NAMES[1], CORE_NAMES[2]};
    KeptAre(p, EVIDENCE_NAMES, files, "launcher_stderr.txt");
    KeptAre(p, EVIDENCE_NAMES, files, "evidence_manifest.json");
  }

  /** None of these operations fails. */
  ghost predicate AllWell(fails: nat -> bool, first: nat, next: nat) {
    forall i | first <= i < next :: !fails(i)
  }

  lemma AllWellSplit(fails: nat -> bool, first: nat, middle: nat, next: nat)
    requires first <= middle <= next
    ensures AllWell(fails, first, next) <==> AllWell(fails, first, middle) && AllWell(fails, middle, next)
  {
  }

  /** The folder of one candidate. `fails` tells which of the operations on it, in the order they are made, raises. */
  class CandidateFolder {
    var folders: map<string, map<string, Bytes>>
    var operations: nat
    const fails: nat -> bool

    constructor (folders: map<string, map<string, Bytes>>, fails: nat -> bool)
      ensures this.folders == folders && operations == 0 && this.fails == fails
    {
      this.folders, operations, this.fails := folders, 0, fails;
    }

    /** One operation that changes nothing by itself. */
    method Attempt() returns (ok: bool)
      modifies this`operations
      ensures operations == old(operations) + 1 && ok == !fails(old(operations))
    {
      ok := !fails(operations);
      operations := operations + 1;
    }

    method MakeFolder(path: string) returns (ok: bool)
      requires path !in folders
      modifies this
      ensures operations == old(operations) + 1 && ok == !fails(old(operations))
      ensures folders == if ok then old(folders)[path := map[]] else old(folders)
    {
      ok := Attempt();
      if ok {
        folders := folders[path := map[]];
      }
    }

    /** `_write_exclusive`: open a file that must not exist, then write it; a failing write leaves the file empty. */
    method Write(path: string, name: string, content: Bytes) returns (ok: bool)
      requires path in folders
      modifies this
      ensures old(operations) < operations
      ensures path in folders && folders == old(folders)[path := folders[path]]
      ensures ok ==> folders[path] == old(folders)[path][name := content]
      ensures ok <==> name !in old(folders)[path] && AllWell(fails, old(operations), operations)
    {
      ok := Attempt();
      if !ok || name in folders[path] {
        return false;
      }
      folders := folders[path := folders[path][name := []]];
      ok := Attempt();
      if ok {
        folders := folders[path := folders[path][name := content]];
      }
    }

    method Rename(path: string, target: string) returns (ok: bool)
      requires path in folders && path != target
      modifies this
      ensures operations == old(operations) + 1 && ok == !fails(old(operations))
      ensures folders == if ok then (old(folders) - {path})[target := old(folders)[path]] else old(folders)
    {
      ok := Attempt();
      if ok {
        var moved := folders[path];
        folders := (folders - {path})[target := moved];
      }
    }

    /** `shutil.rmtree`; a failing removal may leave any of the files. */
    method Remove(path: string)
      modifies this
      ensures operations == old(operations) + 1
      ensures folders - {path} == old(folders) - {path}
      ensures !fails(old(operations)) ==> path !in folders
    {
      var ok := Attempt();
      if ok {
        folders := folders - {path};
      }
    }

    /** Texts are redacted before they are stored. */
    method StoredContent(p: Platform, name: string, content: Bytes) returns (stored: Bytes)
      ensures stored == Stored(p, name, content)
    {
      stored := content;
      if EndsWith(name, ".txt") {
        stored := p.encode(p.redact(p.decode(stored)));
      }
    }

    /** The files that do not come from the archive. */
    method WriteCore(path: string, p: Platform, run: Run, worker: map<string, Value>) returns (ok: bool)
      requires path in folders && folders[path] == map[]
      modifies this
      ensures old(operations) <= operations
      ensures path in folders && folders == old(folders)[path := folders[path]]
      ensures ok ==> folders[path] == CoreFiles(p, run, worker)
      ensures ok <==> AllWell(fails, old(operations), operations)
    {
      hide Sanitized, SourceBytes;
      CoreNamesDiffer();
      ok := Write(path, "source.py", SourceBytes(p, run.request));
      if !ok { return; }
      ok := Write(path, "parameters.json", p.canonical(run.request.parameters) + NEWLINE);
      if !ok { return; }
      ok := Write(path, "observation.json", p.dump(Sanitized(p, Obj(worker))) + NEWLINE);
    }

    /** The archive's files, one by one: the entry list and the folder grow together. */
    method WriteFiles(path: string, p: Platform, run: Run, worker: map<string, Value>, files: map<string, Bytes>)
      returns (entries: seq<FileEntry>, ok: bool)
      requires path in folders && folders[path] == CoreFiles(p, run, worker)
      modifies this
      ensures old(operations) <= operations
      ensures path in folders && folders == old(folders)[path := folders[path]]
      ensures ok ==> entries == FileEntries(p, EVIDENCE_NAMES, files)
      ensures ok ==> folders[path] == CoreFiles(p, run, worker) + KeptFiles(p, EVIDENCE_NAMES, files)
      ensures ok <==> AllWell(fails, old(operations), operations)
    {
      hide Stored, CoreFiles, KeptFiles, FileEntries;
      ghost var core := CoreFiles(p, run, worker);
      NothingKept(p, files);
      entries, ok := [], true;
      for i := 0 to |EVIDENCE_NAMES|
        invariant old(operations) <= operations && AllWell(fails, old(operations), operations)
        invariant path in folders && folders == old(folders)[path := folders[path]]
        invariant entries + FileEntries(p, EVIDENCE_NAMES[i..], files) == FileEntries(p, EVIDENCE_NAMES, files)
        invariant folders[path] == core + KeptFiles(p, EVIDENCE_NAMES[..i], files)
      {
        var name := EVIDENCE_NAMES[i];
        FileKept(p, i, files, entries, folders[path], core);
        FileIsNew(p, i, run, worker, files);
        if name in files {
          var content := StoredContent(p, name, files[name]);
          var written := Write(path, name, content);
          if !written { return entries, false; }
          entries := entries + [FileEntry(name, p.hash(content), |content|)];
        }
      }
      assert EVIDENCE_NAMES[..|EVIDENCE_NAMES|] == EVIDENCE_NAMES;
      assert entries + [] == entries;
      ok := true;
    }

    method WriteLauncher(path: string, p: Platform, stderr: string) returns (entries: seq<FileEntry>, ok: bool)
      requires path in folders && "launcher_stderr.txt" !in folders[path]
      modifies this
      ensures old(operations) <= operations
      ensures path in folders && folders == old(folders)[path := folders[path]]
      ensures ok ==> entries == LauncherEntries(p, stderr)
      ensures ok ==> folders[path] == old(folders)[path] + LauncherFile(p, stderr)
      ensures ok <==> AllWell(fails, old(operations), operations)
    {
      hide Truncated;
      entries, ok := [], true;
      if stderr != "" {
        var content := p.encode(Truncated(p.redact(stderr)));
        ok := Write(path, "launcher_stderr.txt", content);
        entries := [FileEntry("launcher_stderr.txt", p.hash(content), |content|)];
      }
    }

    /** Every file but the manifest. */
    method WriteListed(path: string, p: Platform, run: Run, worker: map<string, Value>, files: map<string, Bytes>,
                       stderr: string) returns (entries: seq<FileEntry>, ok: bool)
      requires path in folders && folders[path] == map[]
      modifies this
      ensures old(operations) <= operations
      ensures path in folders && folders == old(folders)[path := folders[path]]
      ensures ok ==> entries == EvidenceEntries(p, files, stderr)
      ensures ok ==> folders[path] == CoreFiles(p, run, worker) + KeptFiles(p, EVIDENCE_NAMES, files)
                                      + LauncherFile(p, stderr)
      ensures ok <==> AllWell(fails, old(operations), operations)
    {
      hide CoreFiles, FileEntries, KeptFiles, LauncherFile, LauncherEntries, AllWell;
      LastAreNew(p, run, worker, files);
      entries := [];
      ok := WriteCore(path, p, run, worker);
      ghost var core := operations;
      if !ok { return; }
      entries, ok := WriteFiles(path, p, run, worker, files);
      AllWellSplit(fails, old(operations), core, operations);
      ghost var kept := operations;
      if !ok { return; }
      var launched, noted := WriteLauncher(path, p, stderr);
      AllWellSplit(fails, old(operations), kept, operations);
      entries, ok := entries + launched, noted;
    }

    /** Everything that is written before the rename. */
    method Fill(path: string, p: Platform, run: Run, worker: map<string, Value>, files: map<string, Bytes>,
                stderr: string) returns (evidence: Option<Evidence>)
      requires path in folders && folders[path] == map[]
      modifies this
      ensures old(operations) <= operations
      ensures path in folders && folders == old(folders)[path := folders[path]]
      ensures evidence.Some? ==>
                evidence.value == EvidenceOf(p, run, worker, files, stderr) && folders[path] == evidence.value.directory
      ensures evidence.Some? <==> AllWell(fails, old(operations), operations)
    {
      hide EvidenceRecord, Manifest, CoreFiles, KeptFiles, LauncherFile, EvidenceEntries, EvidenceOf;
      LastAreNew(p, run, worker, files);
      LauncherIsNotManifest(p, stderr);
      var entries, ok := WriteListed(path, p, run, worker, files, stderr);
      if !ok { return None; }
      var manifest := Manifest(p, run, Obj(worker), entries);
      Completed(p, run, worker, files, stderr, folders[path]);
      ok := Write(path, "evidence_manifest.json", p.dump(manifest) + NEWLINE);
      if !ok { return None; }
      evidence := Some(Evidence(EvidenceRecord(p, run, worker, entries), manifest, folders[path]));
    }

    /**
     * `_persist_execution_evidence`. The evidence is there completely or not at all: an attempt succeeds exactly when
     * nothing was in the way and none of its operations failed, and one that fails leaves at most a staging folder it
     * could not remove.
     */
    method PersistEvidence(p: Platform, run: Run, worker: map<string, Value>, files: map<string, Bytes>, stderr: string)
      returns (evidence: Option<Evidence>)
      modifies this
      ensures old(operations) <= operations
      ensures evidence.Some? ==>
                && evidence.value == EvidenceOf(p, run, worker, files, stderr)
                && folders == old(folders)[run.executionId := evidence.value.directory]
      ensures evidence.Some? <==>
                && run.executionId !in old(folders) && StagingOf(run.executionId) !in old(folders)
                && AllWell(fails, old(operations), operations)
      ensures evidence.None? ==>
                && folders - {StagingOf(run.executionId)} == old(folders) - {StagingOf(run.executionId)}
                && (StagingOf(run.executionId) in folders ==>
                      StagingOf(run.executionId) in old(folders) || (operations > 0 && fails(operations - 1)))
    {
      hide EvidenceOf;
      var target, staging := run.executionId, StagingOf(run.executionId);
      assert |staging| > |target|;
      var ok := Attempt();
      if !ok || staging in folders || target in folders {
        return None;
      }
      ok := MakeFolder(staging);
      if !ok {
        return None;
      }
      evidence := Fill(staging, p, run, worker, files, stderr);
      if evidence.Some? {
        ok := Rename(staging, target);
        if ok {
          return;
        }
      }
      Remove(staging);
      evidence := None;
    }

    /** An attempt that leaves the folder of the execution behind, or does not. */
    method Attempted(p: Platform, run: Run, worker: map<string, Value>, files: map<string, Bytes>, stderr: string)
      returns (stored: bool)
      requires run.executionId !in folders
      modifies this
      ensures stored <==> run.executionId in folders
      ensures stored ==> folders[run.executionId] == EvidenceOf(p, run, worker, files, stderr).directory
      ensures Elsewhere(folders, run.executionId) == Elsewhere(old(folders), run.executionId)
    {
      hide EvidenceOf, AllWell;
      assert run.executionId != StagingOf(run.executionId);
      var evidence := PersistEvidence(p, run, worker, files, stderr);
      stored := evidence.Some?;
      if !stored {
        assert run.executionId in folders ==> run.executionId in folders - {StagingOf(run.executionId)};
        ElsewhereIs(folders, run.executionId);
        ElsewhereIs(old(folders), run.executionId);
      }
    }

    /**
     * The execution path from the executor's outcome on. It answers as specified, in the world in which its attempts to
     * persist had their outcomes; a manifest is reported exactly when the execution has a folder, which holds it.
     */
    method Execute(p: Platform, run: Run, outcome: Outcome) returns (inv: Invocation, ghost w: World)
      requires run.executionId !in folders
      modifies this
      ensures inv == Execution(p, run, outcome, w)
      ensures inv.manifests != [] <==> run.executionId in folders
      ensures forall m | m in inv.manifests ::
                Get(folders[run.executionId], "evidence_manifest.json") == Some(p.dump(m) + NEWLINE)
      ensures Elsewhere(folders, run.executionId) == Elsewhere(old(folders), run.executionId)
    {
      hide EvidenceOf, CheckArchive, FailedWorker, Elsewhere;
      w := World(run.executionId, false, false, false);
      var result := ResultOf(outcome);
      if result.archive.size == 0 {
        var code := if result.codes != [] then result.codes[0] else "sandbox_protocol_error";
        var worker := FailedWorker("model_program_execution_failed", code, result.exitState);
        var stored := Attempted(p, run, worker, map[], result.stderr);
        w := w.(persistFails := !stored);
        DirectoryHasManifest(p, run, worker, map[], result.stderr);
        inv := FailureReport(p, run, "model_program_execution_failed", code, result.exitState, result.exitState,
                             result.stderr, stored, Some(p.hash(p.canonical(run.request.parameters))));
        return;
      }
      var check := ValidateWorkerArchive(p, result.archive);
      var stored := false;
      match check {
        case Escaped(error) =>
          inv := Invocation(Failure(error), [run.request], []);
          return;
        case Accepted(work) =>
          stored := Attempted(p, run, work.observation, work.files, result.stderr);
          w := w.(persistFails := !stored);
          if stored {
            DirectoryHasManifest(p, run, work.observation, work.files, result.stderr);
            inv := WithArchive(p, run, result, work);
            return;
          }
        case Refused =>
      }
      var code := "sandbox_protocol_error";
      var worker := FailedWorker(code, code, "invalid_archive");
      stored := Attempted(p, run, worker, map[], result.stderr);
      w := w.(fallbackFails := !stored);
      DirectoryHasManifest(p, run, worker, map[], result.stderr);
      inv := FailureReport(p, run, code, code, "invalid_archive", "invalid_archive", result.stderr, stored, None);
    }
  }

  /** The folders that have nothing to do with an execution. */
  function Elsewhere(folders: map<string, map<string, Bytes>>, executionId: string): map<string, map<string, Bytes>> {
    folders - {executionId, StagingOf(executionId)}
  }

  lemma ElsewhereIs(folders: map<string, map<string, Bytes>>, executionId: string)
    ensures Elsewhere(folders, executionId) == (folders - {StagingOf(executionId)}) - {executionId}
  {
  }

  /** The answer to a failed execution, with the record of its evidence or the fallback. */
  function FailureReport(p: Platform, run: Run, kind: string, code: string, exitState: string, workerExit: string,
                    stderr: string, stored: bool, parametersHash: Option<string>): Invocation {
    Failed(p, run, kind, code, exitState, workerExit, stderr, !stored, UnpersistedRecord(run.request, parametersHash))
  }

  lemma DirectoryHasManifest(p: Platform, run: Run, worker: map<string, Value>, files: map<string, Bytes>,
                             stderr: string)
    ensures var evidence := EvidenceOf(p, run, worker, files, stderr);
            Get(evidence.directory, "evidence_manifest.json") == Some(p.dump(evidence.manifest) + NEWLINE)
  {
    hide EvidenceRecord, Manifest, CoreFiles, KeptFiles, LauncherFile, EvidenceEntries;
  }

  lemma LauncherIsNotManifest(p: Platform, stderr: string)
    ensures "evidence_manifest.json" !in LauncherFile(p, stderr)
  {
    assert "evidence_manifest.json"[0] != "launcher_stderr.txt"[0];
  }

  /** With its manifest the folder is the evidence directory. */
  lemma Completed(p: Platform, run: Run, worker: map<string, Value>, files: map<string, Bytes>, stderr: string,
                  staged: map<string, Bytes>)
    requires staged == CoreFiles(p, run, worker) + KeptFiles(p, EVIDENCE_NAMES, files) + LauncherFile(p, stderr)
    ensures var entries := EvidenceEntries(p, files, stderr);
            var manifest := Manifest(p, run, Obj(worker), entries);
            EvidenceOf(p, run, worker, files, stderr)
            == Evidence(EvidenceRecord(p, run, worker, entries), manifest,
                        staged["evidence_manifest.json" := p.dump(manifest) + NEWLINE])
  {
    hide EvidenceRecord, Manifest, CoreFiles, KeptFiles, LauncherFile, EvidenceEntries;
  }

  lemma CoreNamesDiffer()
    ensures "source.py" != "parameters.json" && "source.py" != "observation.json"
    ensures "parameters.json" != "observation.json"
  {
    assert "source.py"[0] != "parameters.json"[0] && "source.py"[0] != "observation.json"[0];
    assert "parameters.json"[0] != "observation.json"[0];
  }

  lemma NothingKept(p: Platform, files: map<string, Bytes>)
    ensures KeptFiles(p, EVIDENCE_NAMES[..0], files) == map[]
    ensures FileEntries(p, EVIDENCE_NAMES[|EVIDENCE_NAMES|..], files) == []
  {
  }
}
