/**
 * The shared run state and the three tool handlers of the coding agent:
 * `terminal`, `createOrUpdateFiles` and `readFiles`. Each handler runs its
 * body once (the durable step executes its closure exactly once here) and
 * turns every failure into a text the agent reads.
 */
module Tools {

  import opened Wrappers
  import opened JsText
  import opened FileMerge
  import opened JsonEntries
  import opened Workspace

  // ---------------------------------------------------------------------
  // Run state

  /** A JavaScript object used as a dictionary from path to file content. */
  class FileMap {
    var entries: map<string, string>

    constructor ()
      ensures entries == map[]
    {
      entries := map[];
    }
  }

  /**
   * The JavaScript values that the state's `files` field and the write
   * step's result can hold: nothing yet, a dictionary object, or a string.
   */
  datatype JsValue = Undefined | Object(obj: FileMap) | Text(s: string)

  /** `network.state.data`: the record every tool call and the completion hook share. */
  class RunState {
    var files: JsValue
    var summary: Option<string>

    /** A network's state starts with neither field set. */
    constructor ()
      ensures files == Undefined && summary == None
    {
      files := Undefined;
      summary := None;
    }

    /** The invariant the write handler's guard keeps: `files` is never a string. */
    predicate Valid()
      reads this
    {
      !files.Text?
    }

    /** The dictionary object `files` refers to, if any. */
    ghost function Footprint(): set<object>
      reads this
    {
      if files.Object? then {files.obj} else {}
    }

    /** The content of `files` as a value; `None` while it is undefined. */
    function Files(): Option<map<string, string>>
      reads this, Footprint()
    {
      if files.Object? then Some(files.obj.entries) else None
    }
  }

  // ---------------------------------------------------------------------
  // terminal

  /** A piece of output the running command streamed to one of the two callbacks. */
  datatype Chunk = Stdout(data: string) | Stderr(data: string)

  /** How `commands.run` ended: it returned a result, or it (or connecting to the sandbox) threw. */
  datatype CommandOutcome = Finished(stdout: string) | Threw(error: string)

  /** What the sandbox did with one command: the chunks it streamed, in order, then its outcome. */
  datatype CommandRun = CommandRun(chunks: seq<Chunk>, outcome: CommandOutcome)

  /** The in-order concatenation of the stdout chunks. */
  function StdoutOf(cs: seq<Chunk>): string {
    if cs == [] then ""
    else StdoutOf(cs[..|cs| - 1]) + (if cs[|cs| - 1].Stdout? then cs[|cs| - 1].data else "")
  }

  /** The in-order concatenation of the stderr chunks. */
  function StderrOf(cs: seq<Chunk>): string {
    if cs == [] then ""
    else StderrOf(cs[..|cs| - 1]) + (if cs[|cs| - 1].Stderr? then cs[|cs| - 1].data else "")
  }

  /** The diagnostic text a failed command is reported as. */
  function FailureReport(error: string, stdout: string, stderr: string): string {
    "Command failed: " + error + " \nstdout: " + stdout + " \nstderr: " + stderr
  }

  /**
   * What `terminal` returns for a command the sandbox ran as `run`: the
   * command's own stdout when it finishes, whatever was streamed; on a
   * failure a report that opens with the error, followed by the stdout
   * buffer, and ends with the stderr buffer.
   */
  function TerminalReply(run: CommandRun): (r: string)
    ensures run.outcome.Finished? ==> r == run.outcome.stdout
    ensures run.outcome.Threw? ==>
      var head := "Command failed: " + run.outcome.error + " \nstdout: ";
      var tail := " \nstderr: " + StderrOf(run.chunks);
      && |head| + |tail| <= |r|
      && r[..|head|] == head
      && r[|head|..|r| - |tail|] == StdoutOf(run.chunks)
      && r[|r| - |tail|..] == tail
  {
    match run.outcome
    case Finished(out) => out
    case Threw(e) => FailureReport(e, StdoutOf(run.chunks), StderrOf(run.chunks))
  }

  /** The stdout buffer over two stretches of output is the buffer of the first followed by that of the second. */
  lemma {:induction false} StdoutOfConcat(a: seq<Chunk>, b: seq<Chunk>)
    ensures StdoutOf(a + b) == StdoutOf(a) + StdoutOf(b)
    decreases |b|
  {
    if b == [] {
      assert a + b == a;
    } else {
      var n := |b|;
      var init, last := b[..n - 1], b[n - 1];
      var tail := if last.Stdout? then last.data else "";
      StdoutOfConcat(a, init);
      assert (a + b)[..|a + b| - 1] == a + init && (a + b)[|a + b| - 1] == last;
      calc {
        StdoutOf(a + b);
        StdoutOf(a + init) + tail;
        (StdoutOf(a) + StdoutOf(init)) + tail;
        StdoutOf(a) + (StdoutOf(init) + tail);
      }
    }
  }

  lemma {:induction false} StderrOfConcat(a: seq<Chunk>, b: seq<Chunk>)
    ensures StderrOf(a + b) == StderrOf(a) + StderrOf(b)
    decreases |b|
  {
    if b == [] {
      assert a + b == a;
    } else {
      var n := |b|;
      var init, last := b[..n - 1], b[n - 1];
      var tail := if last.Stderr? then last.data else "";
      StderrOfConcat(a, init);
      assert (a + b)[..|a + b| - 1] == a + init && (a + b)[|a + b| - 1] == last;
      calc {
        StderrOf(a + b);
        StderrOf(a + init) + tail;
        (StderrOf(a) + StderrOf(init)) + tail;
        StderrOf(a) + (StderrOf(init) + tail);
      }
    }
  }

  /** The stdout buffer of a single chunk. */
  lemma StdoutOfSingle(c: Chunk)
    ensures StdoutOf([c]) == if c.Stdout? then c.data else ""
  {
    assert [c][..0] == [];
  }

  /** A stdout chunk appears in the buffer right after everything streamed before it. */
  lemma StdoutChunkInOrder(cs: seq<Chunk>, i: int)
    requires 0 <= i < |cs| && cs[i].Stdout?
    ensures StdoutOf(cs) == StdoutOf(cs[..i]) + cs[i].data + StdoutOf(cs[i + 1..])
  {
    var a, c, b := cs[..i], [cs[i]], cs[i + 1..];
    assert cs == (a + c) + b;
    StdoutOfConcat(a + c, b);
    StdoutOfConcat(a, c);
    StdoutOfSingle(cs[i]);
  }

  /** Stderr chunks never reach the stdout buffer. */
  lemma StderrChunkSkipped(cs: seq<Chunk>, i: int)
    requires 0 <= i < |cs| && cs[i].Stderr?
    ensures StdoutOf(cs) == StdoutOf(cs[..i]) + StdoutOf(cs[i + 1..])
  {
    var a, c, b := cs[..i], [cs[i]], cs[i + 1..];
    assert cs == (a + c) + b;
    StdoutOfConcat(a + c, b);
    StdoutOfConcat(a, c);
    StdoutOfSingle(cs[i]);
    assert StdoutOf(a + c) == StdoutOf(a);
  }

  /** The two output buffers of a `terminal` call, both empty at first; the streaming callbacks append to them. */
  class Buffers {
    var stdout: string
    var stderr: string

    constructor ()
      ensures stdout == "" && stderr == ""
    {
      stdout, stderr := "", "";
    }

    /** The stdout callback: appends a chunk to the stdout buffer. */
    method OnStdout(data: string)
      modifies this
      ensures stdout == old(stdout) + data && stderr == old(stderr)
    {
      stdout := stdout + data;
    }

    /** The stderr callback: appends a chunk to the stderr buffer. */
    method OnStderr(data: string)
      modifies this
      ensures stderr == old(stderr) + data && stdout == old(stdout)
    {
      stderr := stderr + data;
    }
  }

  /**
   * The `terminal` handler: feeds each streamed chunk to its callback, then
   * returns the command's stdout, or on a failure the diagnostic text with
   * the output captured so far.
   */
  method Terminal(run: CommandRun) returns (r: string)
    ensures r == TerminalReply(run)
  {
    var buffers := new Buffers();
    var i := 0;
    while i < |run.chunks|
      invariant 0 <= i <= |run.chunks|
      invariant buffers.stdout == StdoutOf(run.chunks[..i])
      invariant buffers.stderr == StderrOf(run.chunks[..i])
    {
      assert run.chunks[..i + 1][..i] == run.chunks[..i];
      match run.chunks[i] {
        case Stdout(data) => buffers.OnStdout(data);
        case Stderr(data) => buffers.OnStderr(data);
      }
      i := i + 1;
    }
    assert run.chunks[..i] == run.chunks;
    match run.outcome
    case Finished(out) =>
      r := out;
    case Threw(e) =>
      r := FailureReport(e, buffers.stdout, buffers.stderr);
  }

  // ---------------------------------------------------------------------
  // createOrUpdateFiles

  /** How many entries of `files` reach the sandbox before the session fails. */
  function Written(files: seq<FileEntry>, fault: Option<Fault>): (n: nat)
    ensures n <= |files|
  {
    match fault
    case None => |files|
    case Some(ConnectFails(_)) => 0
    case Some(OpFails(k, _)) => if k < |files| then k else |files|
  }

  /** The fault strikes while the step runs: at connection or at one of the writes. */
  predicate Failed(files: seq<FileEntry>, fault: Option<Fault>) {
    fault.Some? && (fault.value.ConnectFails? || fault.value.index < |files|)
  }

  /**
   * The state's `files` after one `createOrUpdateFiles` call. On success the
   * merged dictionary is published, starting from the empty one when
   * `files` was undefined. On failure nothing is published, but when
   * `files` already held a dictionary the step wrote into that very object,
   * so the entries written before the failure stay in it.
   */
  function FilesAfterWrite(before: Option<map<string, string>>, files: seq<FileEntry>, fault: Option<Fault>): Option<map<string, string>> {
    if !Failed(files, fault) then Some(Merged(before.GetOr(map[]), files))
    else if before.None? then None
    else Some(Merged(before.value, files[..Written(files, fault)]))
  }

  /**
   * The durable step of `createOrUpdateFiles`: writes each entry to the
   * sandbox and into `updatedFiles`, which IS the state's dictionary when
   * one exists (so the state sees each write at once), and returns that
   * object, or `"Error: " + e` when the sandbox throws.
   */
  method WriteStep(state: RunState, sandbox: Sandbox, files: seq<FileEntry>, fault: Option<Fault>) returns (v: JsValue)
    requires state.Valid()
    modifies state.Footprint(), sandbox
    ensures sandbox.fs == Saved(old(sandbox.fs), files[..Written(files, fault)])
    ensures Failed(files, fault) ==> v == Text("Error: " + fault.value.error)
    ensures !Failed(files, fault) ==> v.Object? && v.obj.entries == Merged(old(state.Files()).GetOr(map[]), files)
    ensures !Failed(files, fault) && state.files.Object? ==> v.obj == state.files.obj
    ensures !Failed(files, fault) && state.files.Undefined? ==> fresh(v.obj)
    ensures state.Files() == if state.files.Object? then Some(Merged(old(state.Files()).value, files[..Written(files, fault)])) else None
  {
    var updated: FileMap;
    if state.files.Object? {
      updated := state.files.obj;
    } else {
      updated := new FileMap();
    }
    ghost var start := updated.entries;
    var connectError := ConnectError(fault);
    if connectError.Some? {
      assert fault.value.ConnectFails? && Written(files, fault) == 0;
      assert files[..0] == [];
      return Text("Error: " + connectError.value);
    }
    var i := 0;
    while i < |files|
      invariant 0 <= i <= |files|
      invariant forall j :: 0 <= j < i ==> OpError(fault, j).None?
      invariant state.files.Object? ==> updated == state.files.obj
      invariant state.files.Undefined? ==> fresh(updated)
      invariant updated.entries == Merged(start, files[..i])
      invariant sandbox.fs == Saved(old(sandbox.fs), files[..i])
    {
      var e := OpError(fault, i);
      if e.Some? {
        assert Failed(files, fault) && Written(files, fault) == i;
        return Text("Error: " + e.value);
      }
      assert files[..i + 1][..i] == files[..i];
      sandbox.Write(files[i].path, files[i].content);
      if files[i].path != ProtoKey {
        // The assignment to a plain object stores every key but `__proto__`.
        updated.entries := updated.entries[files[i].path := files[i].content];
      }
      i := i + 1;
    }
    assert files[..i] == files;
    ghost var k := if fault.Some? && fault.value.OpFails? then fault.value.index else 0;
    assert k < |files| ==> OpError(fault, k).None?;
    v := Object(updated);
  }

  /**
   * The `createOrUpdateFiles` handler: runs the step and publishes its
   * result into the state only when it is an object.
   */
  method CreateOrUpdateFiles(state: RunState, sandbox: Sandbox, files: seq<FileEntry>, fault: Option<Fault>)
    requires state.Valid()
    modifies state, state.Footprint(), sandbox
    ensures state.Valid() && state.summary == old(state.summary)
    ensures state.Files() == FilesAfterWrite(old(state.Files()), files, fault)
    ensures sandbox.fs == Saved(old(sandbox.fs), files[..Written(files, fault)])
    ensures fresh(state.Footprint() - old(state.Footprint()))
  {
    var newFiles := WriteStep(state, sandbox, files, fault);
    if newFiles.Object? {
      state.files := newFiles;
    }
  }

  /** A successful write leaves every input path but `__proto__` holding the content of its last occurrence in the input. */
  lemma WriteLastWins(before: Option<map<string, string>>, files: seq<FileEntry>, fault: Option<Fault>, i: int)
    requires !Failed(files, fault) && LastOccurrence(files, i) && files[i].path != ProtoKey
    ensures FilesAfterWrite(before, files, fault).Some?
    ensures var after := FilesAfterWrite(before, files, fault).value;
      files[i].path in after && after[files[i].path] == files[i].content
  {
    MergedLastWins(before.GetOr(map[]), files, i);
  }

  /** A successful write keeps every path it does not name, and `__proto__`; a missing `files` counts as the empty dictionary. */
  lemma WriteKeepsOthers(before: Option<map<string, string>>, files: seq<FileEntry>, fault: Option<Fault>, p: string)
    requires !Failed(files, fault) && (p !in Paths(files) || p == ProtoKey)
    ensures FilesAfterWrite(before, files, fault).Some?
    ensures var after := FilesAfterWrite(before, files, fault).value;
      && (p in after <==> (before.Some? && p in before.value))
      && (before.Some? && p in before.value ==> after[p] == before.value[p])
  {
    MergedKeepsOthers(before.GetOr(map[]), files, p);
  }

  /** Two successful writes amount to one write of both lists: later content wins, all paths stay. */
  lemma WritesConverge(before: Option<map<string, string>>, a: seq<FileEntry>, b: seq<FileEntry>)
    ensures FilesAfterWrite(FilesAfterWrite(before, a, None), b, None) == FilesAfterWrite(before, a + b, None)
  {
    MergedCompose(before.GetOr(map[]), a, b);
  }

  /** No call removes a path: the dictionary only grows, and once defined it stays defined. */
  lemma WriteNeverRemoves(before: Option<map<string, string>>, files: seq<FileEntry>, fault: Option<Fault>)
    ensures before.Some? ==> FilesAfterWrite(before, files, fault).Some?
    ensures before.Some? ==> before.value.Keys <= FilesAfterWrite(before, files, fault).value.Keys
  {
    if before.Some? {
      MergedKeys(before.value, files);
      MergedKeys(before.value, files[..Written(files, fault)]);
    }
  }

  /** A failing call on a state without `files` leaves it undefined. */
  lemma FailedWriteOnUndefined(files: seq<FileEntry>, fault: Option<Fault>)
    requires Failed(files, fault)
    ensures FilesAfterWrite(None, files, fault) == None
  {
  }

  /**
   * A failing call on a state that already has `files` keeps the writes
   * made before the failure: each entry of the written prefix that is the
   * last one for its path there is visible in the state.
   */
  lemma FailedWriteKeepsPrefix(m: map<string, string>, files: seq<FileEntry>, fault: Option<Fault>, i: int)
    requires Failed(files, fault)
    requires LastOccurrence(files[..Written(files, fault)], i) && files[i].path != ProtoKey
    ensures FilesAfterWrite(Some(m), files, fault).Some?
    ensures var after := FilesAfterWrite(Some(m), files, fault).value;
      files[i].path in after && after[files[i].path] == files[i].content
  {
    var done := files[..Written(files, fault)];
    MergedLastWins(m, done, i);
  }

  /** So an error does not leave `files` unchanged: one write before a failing second one persists. */
  lemma FailedWriteCanChangeFiles()
    ensures var files := [FileEntry("app/page.tsx", "A"), FileEntry("app/b.tsx", "B")];
      FilesAfterWrite(Some(map[]), files, Some(OpFails(1, "boom"))) == Some(map["app/page.tsx" := "A"])
  {
    var files := [FileEntry("app/page.tsx", "A"), FileEntry("app/b.tsx", "B")];
    assert files[..1] == [FileEntry("app/page.tsx", "A")];
    assert files[..1][..0] == [];
  }

  /**
   * A file named `__proto__` reaches the sandbox but not `files`: on a
   * state without `files` the call publishes the empty dictionary.
   */
  lemma ProtoPathNotPublished()
    ensures var files := [FileEntry(ProtoKey, "x")];
      && FilesAfterWrite(None, files, None) == Some(map[])
      && Saved(map[], files) == map[ProtoKey := "x"]
  {
    var files := [FileEntry(ProtoKey, "x")];
    assert files[..0] == [];
    assert Merged(map[], files) == Merged(map[], files[..0]);
  }

  // ---------------------------------------------------------------------
  // readFiles

  /** The outcome of reading path `paths[i]`, the `i`-th file operation of the session. */
  function ReadOutcome(fs: map<string, string>, path: string, i: nat, fault: Option<Fault>): Result<string, string> {
    if OpError(fault, i).Some? then Err(OpError(fault, i).value)
    else if path in fs then Ok(fs[path])
    else Err(NotFound(path))
  }

  function Prepend(prefix: seq<FileEntry>, r: Result<seq<FileEntry>, string>): Result<seq<FileEntry>, string> {
    match r
    case Ok(rest) => Ok(prefix + rest)
    case Err(e) => Err(e)
  }

  /** Reading `paths[i..]` in order, stopping at the first failure. */
  function ReadFrom(fs: map<string, string>, paths: seq<string>, fault: Option<Fault>, i: nat): Result<seq<FileEntry>, string>
    requires i <= |paths|
    decreases |paths| - i
  {
    if i == |paths| then Ok([])
    else
      match ReadOutcome(fs, paths[i], i, fault)
      case Err(e) => Err(e)
      case Ok(c) => Prepend([FileEntry(paths[i], c)], ReadFrom(fs, paths, fault, i + 1))
  }

  /** The whole session: connect, then read every path. */
  function ReadAll(fs: map<string, string>, paths: seq<string>, fault: Option<Fault>): Result<seq<FileEntry>, string> {
    match ConnectError(fault)
    case Some(e) => Err(e)
    case None => ReadFrom(fs, paths, fault, 0)
  }

  /**
   * What `readFiles` returns: on success a text that decodes to exactly
   * the records read; on failure the error text, which never decodes as
   * records.
   */
  function ReadFilesReply(fs: map<string, string>, paths: seq<string>, fault: Option<Fault>): (r: string)
    ensures ReadAll(fs, paths, fault).Ok? ==> ParseEntries(r) == Some(ReadAll(fs, paths, fault).value)
    ensures ReadAll(fs, paths, fault).Err? ==>
      r == "Error: " + ReadAll(fs, paths, fault).error && ParseEntries(r) == None
  {
    match ReadAll(fs, paths, fault)
    case Ok(es) => Serialize(es)
    case Err(e) => "Error: " + e
  }

  /**
   * The `readFiles` handler: reads each path in order, collecting
   * `{path, content}` records, and returns their JSON, or `"Error: " + e`
   * at the first failure. It changes neither the run state nor the sandbox.
   */
  method ReadFiles(sandbox: Sandbox, paths: seq<string>, fault: Option<Fault>) returns (r: string)
    ensures r == ReadFilesReply(sandbox.fs, paths, fault)
  {
    var connectError := ConnectError(fault);
    if connectError.Some? {
      return "Error: " + connectError.value;
    }
    assert Prepend([], ReadFrom(sandbox.fs, paths, fault, 0)) == ReadFrom(sandbox.fs, paths, fault, 0) by {
      match ReadFrom(sandbox.fs, paths, fault, 0) {
        case Ok(rest) => assert [] + rest == rest;
        case Err(_) =>
      }
    }
    var contents: seq<FileEntry> := [];
    var i := 0;
    while i < |paths|
      invariant 0 <= i <= |paths|
      invariant ReadFrom(sandbox.fs, paths, fault, 0) == Prepend(contents, ReadFrom(sandbox.fs, paths, fault, i))
    {
      var e := OpError(fault, i);
      if e.Some? {
        return "Error: " + e.value;
      }
      var content := sandbox.Read(paths[i]);
      if content.Err? {
        return "Error: " + content.error;
      }
      var entry := FileEntry(paths[i], content.value);
      match ReadFrom(sandbox.fs, paths, fault, i + 1) {
        case Ok(rest) => assert contents + ([entry] + rest) == (contents + [entry]) + rest;
        case Err(_) =>
      }
      contents := contents + [entry];
      i := i + 1;
    }
    assert contents + [] == contents;
    r := Serialize(contents);
  }

  /** Reading from index `i` succeeds exactly when no later read fails, and then yields the paths with their contents in order. */
  lemma {:induction false} ReadFromSpec(fs: map<string, string>, paths: seq<string>, fault: Option<Fault>, i: nat)
    requires i <= |paths|
    ensures ReadFrom(fs, paths, fault, i).Ok? <==>
      forall j :: i <= j < |paths| ==> OpError(fault, j).None? && paths[j] in fs
    ensures ReadFrom(fs, paths, fault, i).Ok? ==>
      var es := ReadFrom(fs, paths, fault, i).value;
      |es| == |paths| - i && forall j :: i <= j < |paths| ==> es[j - i] == FileEntry(paths[j], fs[paths[j]])
    decreases |paths| - i
  {
    if i < |paths| {
      ReadFromSpec(fs, paths, fault, i + 1);
    }
  }

  /**
   * `readFiles` is all-or-nothing: it yields records exactly when the
   * session connects and every path is read, and then one record per path
   * in input order, holding that path's content.
   */
  lemma ReadAllSpec(fs: map<string, string>, paths: seq<string>, fault: Option<Fault>)
    ensures ReadAll(fs, paths, fault).Ok? <==>
      ConnectError(fault).None? && forall j :: 0 <= j < |paths| ==> OpError(fault, j).None? && paths[j] in fs
    ensures ReadAll(fs, paths, fault).Ok? ==>
      var es := ReadAll(fs, paths, fault).value;
      |es| == |paths| && forall j :: 0 <= j < |paths| ==> es[j] == FileEntry(paths[j], fs[paths[j]])
  {
    ReadFromSpec(fs, paths, fault, 0);
  }
}
