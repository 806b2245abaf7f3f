/**
 * The code agent's completion hook, the network's router and iteration
 * loop, and the record the run returns. The language model is not
 * modelled: each of its turns is given as a `Turn`, the tool calls it made
 * (with what the sandbox did for each) and the text of its last assistant
 * message.
 */
module Network {

  import opened Wrappers
  import opened JsText
  import opened FileMerge
  import opened Workspace
  import opened Tools

  /** The text whose presence in a reply signals that the task is done. */
  const SummaryMarker: string := "<task_summary>"

  /** The network's `maxIter`. */
  const MaxIter: nat := 15

  /** The title of every returned fragment. */
  const FragmentTitle: string := "Fragment"

  /** One tool call of a turn, with the sandbox behaviour it met. */
  datatype ToolCall =
    | TerminalCall(run: CommandRun)
    | WriteCall(files: seq<FileEntry>, writeFault: Option<Fault>)
    | ReadCall(paths: seq<string>, readFault: Option<Fault>)

  /** One reply of the model: its tool calls in order, then its last assistant text, if any. */
  datatype Turn = Turn(calls: seq<ToolCall>, lastText: Option<string>)

  /** The network has a single agent. */
  datatype Agent = CodeAgent

  /** What a run's state and sandbox hold, as values. */
  datatype RunView = RunView(files: Option<map<string, string>>, summary: Option<string>, disk: map<string, string>)

  /** The value the whole function returns. */
  datatype RunResult = RunResult(url: string, title: string, files: Option<map<string, string>>, summary: Option<string>)

  // ---------------------------------------------------------------------
  // Completion hook

  /** The reply's last assistant text carries the completion marker. */
  predicate Marked(t: Turn) {
    t.lastText.Some? && Includes(t.lastText.value, SummaryMarker)
  }

  /**
   * `summary` after `onResponse` has seen a reply whose last assistant
   * text is `lastText`. The hook stores the whole text, not just the marked
   * part, exactly when it includes the marker, so a stored summary is
   * always truthy; otherwise the summary is left as it was.
   */
  function SummaryAfterResponse(summary: Option<string>, lastText: Option<string>): (r: Option<string>)
    ensures lastText.Some? && Includes(lastText.value, SummaryMarker) ==> r == lastText && Truthy(r)
    ensures !(lastText.Some? && Includes(lastText.value, SummaryMarker)) ==> r == summary
  {
    if lastText.Some? && Includes(lastText.value, SummaryMarker) then lastText else summary
  }

  /** `lifecycle.onResponse` of the code agent. */
  method OnResponse(state: RunState, lastText: Option<string>)
    modifies state`summary
    ensures state.summary == SummaryAfterResponse(old(state.summary), lastText)
  {
    if lastText.Some? && Includes(lastText.value, SummaryMarker) {
      state.summary := lastText;
    }
  }

  // ---------------------------------------------------------------------
  // Router

  /** The network's router: no agent once `summary` is truthy, the code agent otherwise. */
  function Router(summary: Option<string>): (next: Option<Agent>)
    ensures next.None? <==> Truthy(summary)
  {
    if Truthy(summary) then None else Some(CodeAgent)
  }

  // ---------------------------------------------------------------------
  // The run as values

  function ApplyCall(v: RunView, c: ToolCall): RunView {
    match c
    case TerminalCall(_) => v
    case WriteCall(files, fault) =>
      v.(files := FilesAfterWrite(v.files, files, fault), disk := Saved(v.disk, files[..Written(files, fault)]))
    case ReadCall(_, _) => v
  }

  function ApplyCalls(v: RunView, cs: seq<ToolCall>): RunView {
    if cs == [] then v else ApplyCall(ApplyCalls(v, cs[..|cs| - 1]), cs[|cs| - 1])
  }

  /** The view once the completion hook has seen the reply `t`. */
  function AfterHook(v: RunView, t: Turn): RunView {
    v.(summary := SummaryAfterResponse(v.summary, t.lastText))
  }

  /** One agent turn: the completion hook on the model's reply, then the reply's tool calls. */
  function ApplyTurn(v: RunView, t: Turn): RunView {
    ApplyCalls(AfterHook(v, t), t.calls)
  }

  /** The view after playing the turns `rs` in order. */
  function Advance(v: RunView, rs: seq<Turn>): RunView {
    if rs == [] then v else ApplyTurn(Advance(v, rs[..|rs| - 1]), rs[|rs| - 1])
  }

  /** The number of turns the network plays, counting on from `k` turns already played. */
  function TurnCount(v: RunView, replies: seq<Turn>, k: nat): (n: nat)
    requires k <= MaxIter <= |replies|
    ensures k <= n <= MaxIter
    decreases MaxIter - k
  {
    if k == MaxIter || Router(Advance(v, replies[..k]).summary).None? then k
    else TurnCount(v, replies, k + 1)
  }

  /** Tool calls never touch `summary`. */
  lemma {:induction false} CallsKeepSummary(v: RunView, cs: seq<ToolCall>)
    ensures ApplyCalls(v, cs).summary == v.summary
    decreases |cs|
  {
    if cs != [] {
      CallsKeepSummary(v, cs[..|cs| - 1]);
    }
  }

  /** Turns without the marker leave `summary` as it was. */
  lemma {:induction false} UnmarkedTurnsKeepSummary(v: RunView, rs: seq<Turn>)
    requires forall j :: 0 <= j < |rs| ==> !Marked(rs[j])
    ensures Advance(v, rs).summary == v.summary
    decreases |rs|
  {
    if rs != [] {
      var n := |rs|;
      assert forall j :: 0 <= j < n - 1 ==> rs[..n - 1][j] == rs[j];
      UnmarkedTurnsKeepSummary(v, rs[..n - 1]);
      CallsKeepSummary(AfterHook(Advance(v, rs[..n - 1]), rs[n - 1]), rs[n - 1].calls);
    }
  }

  /** After turn `i + 1` of a run with no summary yet, the summary is that turn's text if it is marked, and none otherwise. */
  lemma TurnSummary(v: RunView, replies: seq<Turn>, i: nat)
    requires i < |replies| && Advance(v, replies[..i]).summary == None
    ensures Advance(v, replies[..i + 1]).summary == if Marked(replies[i]) then replies[i].lastText else None
    ensures Truthy(Advance(v, replies[..i + 1]).summary) <==> Marked(replies[i])
  {
    assert replies[..i + 1][..i] == replies[..i];
    CallsKeepSummary(AfterHook(Advance(v, replies[..i]), replies[i]), replies[i].calls);
  }

  /**
   * A run that played `k` turns stopped where it should: no turn before
   * the last carries the marker, it stopped before the cap only right
   * after a marked turn, and its summary is the text of that turn, if
   * marked.
   */
  predicate EndsAfter(v: RunView, replies: seq<Turn>, k: nat)
    requires 1 <= k <= |replies|
  {
    && (forall j :: 0 <= j < k - 1 ==> !Marked(replies[j]))
    && (k < MaxIter ==> Marked(replies[k - 1]))
    && Advance(v, replies[..k]).summary == if Marked(replies[k - 1]) then replies[k - 1].lastText else None
  }

  /** The marked turn that ends a run from turn `i` on, none of the earlier ones being marked. */
  lemma {:induction false} TurnCountFrom(v: RunView, replies: seq<Turn>, i: nat)
    requires v.summary == None && i <= MaxIter <= |replies|
    requires forall j :: 0 <= j < i ==> !Marked(replies[j])
    ensures var k := TurnCount(v, replies, i);
      && (i < MaxIter ==> i < k)
      && 1 <= k
      && EndsAfter(v, replies, k)
    decreases MaxIter - i
  {
    assert Advance(v, replies[..i]).summary == None by {
      assert forall j :: 0 <= j < i ==> replies[..i][j] == replies[j];
      UnmarkedTurnsKeepSummary(v, replies[..i]);
    }
    if i < MaxIter {
      assert TurnCount(v, replies, i) == TurnCount(v, replies, i + 1);
      TurnSummary(v, replies, i);
      if Marked(replies[i]) {
        assert TurnCount(v, replies, i + 1) == i + 1;
      } else {
        assert forall j :: 0 <= j < i + 1 ==> !Marked(replies[j]);
        TurnCountFrom(v, replies, i + 1);
      }
    }
  }

  /**
   * A run from a state without a summary plays between 1 and 15 turns.
   * No turn before the last one played carries the marker, it stops early
   * only right after a marked turn, and the final summary is the text of
   * that turn (or stays undefined when the cap ends the run unmarked).
   */
  lemma FreshRunStopsAtFirstSummary(v: RunView, replies: seq<Turn>)
    requires v.summary == None && MaxIter <= |replies|
    ensures var k := TurnCount(v, replies, 0);
      && 1 <= k <= MaxIter
      && (forall j :: 0 <= j < k - 1 ==> !Marked(replies[j]))
      && (k < MaxIter ==> Marked(replies[k - 1]))
      && Advance(v, replies[..k]).summary == if Marked(replies[k - 1]) then replies[k - 1].lastText else None
  {
    TurnCountFrom(v, replies, 0);
  }

  /** A model that never emits the marker is stopped by the cap after exactly 15 turns, with no summary. */
  lemma NeverMarkedRunsToCap(v: RunView, replies: seq<Turn>)
    requires v.summary == None && MaxIter <= |replies|
    requires forall j :: 0 <= j < MaxIter ==> !Marked(replies[j])
    ensures TurnCount(v, replies, 0) == MaxIter
    ensures Advance(v, replies[..MaxIter]).summary == None
  {
    FreshRunStopsAtFirstSummary(v, replies);
  }

  /** A marker first emitted on turn `j + 1` ends the run right after that turn, with that text as summary. */
  lemma FirstMarkEndsRun(v: RunView, replies: seq<Turn>, j: nat)
    requires v.summary == None && j < MaxIter <= |replies|
    requires Marked(replies[j]) && forall i :: 0 <= i < j ==> !Marked(replies[i])
    ensures TurnCount(v, replies, 0) == j + 1
    ensures Advance(v, replies[..j + 1]).summary == replies[j].lastText
  {
    FreshRunStopsAtFirstSummary(v, replies);
  }

  /** No tool call removes a path from `files`, and once defined `files` stays defined. */
  lemma {:induction false} CallsNeverRemoveFiles(v: RunView, cs: seq<ToolCall>)
    requires v.files.Some?
    ensures ApplyCalls(v, cs).files.Some? && v.files.value.Keys <= ApplyCalls(v, cs).files.value.Keys
    decreases |cs|
  {
    if cs != [] {
      var w := ApplyCalls(v, cs[..|cs| - 1]);
      CallsNeverRemoveFiles(v, cs[..|cs| - 1]);
      match cs[|cs| - 1]
      case WriteCall(files, fault) => WriteNeverRemoves(w.files, files, fault);
      case TerminalCall(_) =>
      case ReadCall(_, _) =>
    }
  }

  /** Over a whole run, `files` only grows. */
  lemma {:induction false} RunNeverRemovesFiles(v: RunView, rs: seq<Turn>)
    requires v.files.Some?
    ensures Advance(v, rs).files.Some? && v.files.value.Keys <= Advance(v, rs).files.value.Keys
    decreases |rs|
  {
    if rs != [] {
      RunNeverRemovesFiles(v, rs[..|rs| - 1]);
      CallsNeverRemoveFiles(AfterHook(Advance(v, rs[..|rs| - 1]), rs[|rs| - 1]), rs[|rs| - 1].calls);
    }
  }

  // ---------------------------------------------------------------------
  // The run on the heap

  function ViewOf(state: RunState, sandbox: Sandbox): RunView
    reads state, state.Footprint(), sandbox
  {
    RunView(state.Files(), state.summary, sandbox.fs)
  }

  /** One turn of the code agent: the completion hook on the model's reply, then its tool calls one at a time. */
  method ExecuteTurn(state: RunState, sandbox: Sandbox, turn: Turn)
    requires state.Valid()
    modifies state, state.Footprint(), sandbox
    ensures state.Valid()
    ensures ViewOf(state, sandbox) == ApplyTurn(old(ViewOf(state, sandbox)), turn)
    ensures fresh(state.Footprint() - old(state.Footprint()))
  {
    OnResponse(state, turn.lastText);
    ghost var v0 := ViewOf(state, sandbox);
    var i := 0;
    while i < |turn.calls|
      invariant 0 <= i <= |turn.calls|
      invariant state.Valid()
      invariant ViewOf(state, sandbox) == ApplyCalls(v0, turn.calls[..i])
      invariant fresh(state.Footprint() - old(state.Footprint()))
    {
      assert turn.calls[..i + 1][..i] == turn.calls[..i];
      match turn.calls[i] {
        case TerminalCall(run) =>
          var _ := Terminal(run);
        case WriteCall(files, fault) =>
          CreateOrUpdateFiles(state, sandbox, files, fault);
        case ReadCall(paths, fault) =>
          var _ := ReadFiles(sandbox, paths, fault);
      }
      i := i + 1;
    }
    assert turn.calls[..i] == turn.calls;
  }

  /**
   * `network.run`: before each turn the router is asked for the next
   * agent; the run stops when it names none or after `MaxIter` turns.
   * `replies` holds the model's reply for every turn the run could play.
   */
  method RunNetwork(state: RunState, sandbox: Sandbox, replies: seq<Turn>) returns (turns: nat)
    requires state.Valid() && MaxIter <= |replies|
    modifies state, state.Footprint(), sandbox
    ensures state.Valid()
    ensures turns == TurnCount(old(ViewOf(state, sandbox)), replies, 0)
    ensures ViewOf(state, sandbox) == Advance(old(ViewOf(state, sandbox)), replies[..turns])
    ensures fresh(state.Footprint() - old(state.Footprint()))
  {
    ghost var v0 := ViewOf(state, sandbox);
    turns := 0;
    while turns < MaxIter
      invariant 0 <= turns <= MaxIter
      invariant state.Valid()
      invariant ViewOf(state, sandbox) == Advance(v0, replies[..turns])
      invariant TurnCount(v0, replies, turns) == TurnCount(v0, replies, 0)
      invariant fresh(state.Footprint() - old(state.Footprint()))
    {
      var next := Router(state.summary);
      if next.None? {
        break;
      }
      assert replies[..turns + 1][..turns] == replies[..turns];
      ExecuteTurn(state, sandbox, replies[turns]);
      turns := turns + 1;
    }
  }

  /**
   * The whole function: start a sandbox from the template, run the
   * network on a fresh state, and return the sandbox's address (`host` is
   * what `getHost(3000)` gives) with the final `files` and `summary`.
   * `createFault` and `urlFault` are the errors, if any, thrown by
   * `Sandbox.create` and by the `get-sandbox-url` step; either one aborts
   * the function, so it returns no record.
   */
  method HelloWorld(template: map<string, string>, replies: seq<Turn>, host: string,
                    createFault: Option<string>, urlFault: Option<string>) returns (r: Result<RunResult, string>)
    requires MaxIter <= |replies|
    ensures createFault.Some? ==> r == Err(createFault.value)
    ensures createFault.None? && urlFault.Some? ==> r == Err(urlFault.value)
    ensures createFault.None? && urlFault.None? ==>
      && r.Ok? && r.value.url == "https://" + host && r.value.title == FragmentTitle
      && var v0 := RunView(None, None, template);
      var k := TurnCount(v0, replies, 0);
      && 1 <= k <= MaxIter
      && r.value.files == Advance(v0, replies[..k]).files
      && r.value.summary == (if Marked(replies[k - 1]) then replies[k - 1].lastText else None)
  {
    if createFault.Some? {
      return Err(createFault.value);
    }
    var sandbox := new Sandbox(template);
    var state := new RunState();
    var turns := RunNetwork(state, sandbox, replies);
    FreshRunStopsAtFirstSummary(RunView(None, None, template), replies);
    if urlFault.Some? {
      return Err(urlFault.value);
    }
    var url := "https://" + host;
    r := Ok(RunResult(url, FragmentTitle, state.Files(), state.summary));
  }
}
