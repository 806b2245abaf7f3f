# Genetix coding-agent run, modelled in Dafny

Genetix runs an autonomous coding agent against a remote sandbox. It has two parts, modelled here.

The first part is the background function in `genetix/src/inngest/functions.ts`. It starts a sandbox and builds a network with one code agent. The agent has three tools:
- `terminal` runs a command.
- `createOrUpdateFiles` writes files and records them in the shared run state.
- `readFiles` returns file contents as JSON.

A completion hook runs on each model reply, before the reply's tool calls, and stores the agent's last text as `summary` once that text contains `<task_summary>`. The router stops the network as soon as `summary` is truthy, and the network never plays more than 15 turns. The function then returns `{url, title: "Fragment", files, summary}`.

The second part is the tRPC messages router in `genetix/src/modules/messages/server/procedures.ts`:
- `create` validates its input, stores a USER/RESULT message and then sends a `code-agent/run` event.
- `getMany` lists the stored messages by `updatedAt`.

The two parts are modelled independently. The function listens for `test/hello.world`, not for the event that `create` sends.

Modules:
- `Wrappers`: `Option` and `Result`.
- `JsText`: JavaScript's `includes`, truthiness, and `length` counted in UTF-16 code units.
- `FileMerge`: the dictionary update `updatedFiles[path] = content`, and its last-write-wins laws.
- `JsonEntries`: `JSON.stringify` of the `{path, content}` records, including escaping, and a reader for that text, so that the round trip is proved.
- `Workspace`: the sandbox as a class over a path → content map. Failures are an environment-chosen `Fault`: connecting throws, or the n-th file operation throws.
- `Tools`: the run state (`RunState`, `FileMap`) and the three handlers as methods, each proved against a function of its inputs.
- `Network`: `onResponse`, the router, the bounded loop, and the returned record. The whole run is also described as values (`Advance`, `TurnCount`), with lemmas about termination and the summary.
- `Messages`: `create` and `getMany` over a message table and an event outbox.

Files are shared by reference. `network.state.data.files` is a `FileMap` object, and the write step writes into that same object when it exists (functions.ts:64). This has a consequence when the sandbox throws part-way through a write:
- The guard at functions.ts:75-77 skips publishing the error string.
- The entries written before the failure are still visible in the state.

What holds is that `files` never holds a string (`RunState.Valid`). A failed write does not leave `files` unchanged: the entries written before the fault stay, because the dictionary is shared (`Tools.FilesAfterWrite`, `Tools.FailedWriteKeepsPrefix`, `Tools.FailedWriteCanChangeFiles`).

`updatedFiles` is a plain JavaScript object. Assigning to its `__proto__` key calls the inherited setter, which ignores a string, so a file named `__proto__` is written to the sandbox but never appears in `files` (`FileMerge.Merged`, `FileMerge.MergedIsSavedWithoutProto`, `Tools.ProtoPathNotPublished`).

## Model

| member | source | states |
|---|---|---|
| `FileMerge.Merged` | genetix/src/inngest/functions.ts:66-69 | the plain-object update `updatedFiles[path] = content` over the list, in order; no key is ever removed |
| `FileMerge.MergedIsSavedWithoutProto` | genetix/src/inngest/functions.ts:67-68 | applied to the same starting map, the sandbox writes of :67 and the object assignments of :68 give the same dictionary except for the key `__proto__`, which the object's setter swallows |
| `FileMerge.MergedLastWins` | genetix/src/inngest/functions.ts:66-69 | after the merge, each path of the input other than `__proto__` holds the content of its last occurrence in the input list |
| `FileMerge.MergedKeepsOthers` | genetix/src/inngest/functions.ts:64-69 | a path the input does not name, and `__proto__` always, keeps its previous content, and stays absent if it was absent |
| `FileMerge.MergedKeys` | genetix/src/inngest/functions.ts:66-69 | the keys afterwards are exactly the old keys plus the input paths other than `__proto__`; nothing is removed |
| `FileMerge.MergedCompose` | genetix/src/inngest/functions.ts:66-69 | merging list a and then list b equals merging a + b |
| `FileMerge.MergedIdempotent` | genetix/src/inngest/functions.ts:66-69 | merging the same list twice gives the same dictionary as merging it once |
| `Tools.WriteStep` | genetix/src/inngest/functions.ts:62-74 | writes the entries before the fault to the sandbox, in order. Returns `"Error: " + e` exactly when the fault strikes, else the dictionary object. That object is the state's own one when it existed, and a fresh one starting empty otherwise. The state's dictionary receives the same writes before any failure |
| `Tools.CreateOrUpdateFiles` | genetix/src/inngest/functions.ts:61-78 | keeps `files` from ever being a string. Leaves `summary` alone. `files` becomes `FilesAfterWrite` of its old value. The sandbox holds the written prefix |
| `Tools.WriteLastWins` | genetix/src/inngest/functions.ts:64-70 | after a successful call, every input path other than `__proto__` maps to the content of its last occurrence |
| `Tools.WriteKeepsOthers` | genetix/src/inngest/functions.ts:64 | after a successful call, paths missing from the input, and `__proto__`, keep their content. A missing `files` counts as the empty dictionary |
| `Tools.WritesConverge` | genetix/src/inngest/functions.ts:64-77 | two successful calls equal one call over both lists, so the later content wins and the paths of both are present |
| `Tools.WriteNeverRemoves` | genetix/src/inngest/functions.ts:64-77 | once `files` is defined, no call, failing or not, undefines it or removes a path |
| `Tools.FailedWriteOnUndefined` | genetix/src/inngest/functions.ts:71-77 | a failing call on a state without `files` leaves it undefined |
| `Tools.FailedWriteKeepsPrefix` | genetix/src/inngest/functions.ts:64-77 | a failing call on a state with `files` keeps the entries written before the failure, because the dictionary is aliased |
| `Tools.ProtoPathNotPublished` | genetix/src/inngest/functions.ts:64-77 | concrete case: a file named `__proto__` on a state without `files` reaches the sandbox, while `files` becomes the empty dictionary |
| `Tools.FailedWriteCanChangeFiles` | genetix/src/inngest/functions.ts:64-77 | concrete case: a failure at the second write still leaves the first write in `files` |
| `Tools.TerminalReply` | genetix/src/inngest/functions.ts:49-51 | a finished command yields its own `stdout`, whatever was streamed. A failure yields a report that opens with `Command failed: ` and the error, then holds the stdout buffer, and ends with the stderr buffer |
| `Tools.Terminal` | genetix/src/inngest/functions.ts:40-53 | returns the command's `stdout` on success. On a failure it returns `"Command failed: <e> \nstdout: <out> \nstderr: <err>"`, with the two buffers fed by the callbacks chunk by chunk |
| `Tools.Buffers.OnStdout` | genetix/src/inngest/functions.ts:46 | appends the data to the stdout buffer and leaves stderr alone |
| `Tools.Buffers.OnStderr` | genetix/src/inngest/functions.ts:47 | appends the data to the stderr buffer and leaves stdout alone |
| `Tools.StdoutOfConcat` | genetix/src/inngest/functions.ts:46 | the stdout buffer over two stretches of output is the first's buffer followed by the second's |
| `Tools.StderrOfConcat` | genetix/src/inngest/functions.ts:47 | the same for the stderr buffer |
| `Tools.StdoutChunkInOrder` | genetix/src/inngest/functions.ts:46 | each stdout chunk appears in the buffer right after everything streamed before it |
| `Tools.StderrChunkSkipped` | genetix/src/inngest/functions.ts:46-47 | stderr chunks never reach the stdout buffer |
| `Tools.ReadFiles` | genetix/src/inngest/functions.ts:85-99 | returns the JSON of the records read, or `"Error: " + e` at the first failure. It has no access to the run state and does not change the sandbox |
| `Tools.ReadFromSpec` | genetix/src/inngest/functions.ts:90-93 | reading from index i succeeds iff no later read fails. Then it yields one record per remaining path, in order, with that path's content |
| `Tools.ReadAllSpec` | genetix/src/inngest/functions.ts:88-97 | all or nothing: records exactly when the sandbox connects and every path exists and reads. Then one record per path, in input order |
| `Tools.ReadFilesReply` | genetix/src/inngest/functions.ts:88-97 | on success the reply decodes back to exactly the records. On failure it is `"Error: " + e`, which never decodes as records |
| `JsonEntries.Serialize` | genetix/src/inngest/functions.ts:94 | `JSON.stringify` of the records, read back, gives the same records |
| `JsonEntries.UnescapeEscaped` | genetix/src/inngest/functions.ts:94 | every escape sequence the serialiser writes for a character reads back as that character |
| `JsonEntries.ScanEscaped` | genetix/src/inngest/functions.ts:94 | an escaped string body followed by its closing quote reads back as the original string |
| `JsText.Includes` | genetix/src/inngest/functions.ts:112 | the empty pattern is found in every text, and a text never includes a longer pattern |
| `JsText.IncludesIffOccurs` | genetix/src/inngest/functions.ts:112 | `includes` is true exactly when some window of the text equals the pattern |
| `JsText.Truthy` | genetix/src/inngest/functions.ts:126 | `undefined` and the empty string are falsy; every other string is truthy |
| `Network.OnResponse` | genetix/src/inngest/functions.ts:110-116 | `summary` becomes the whole last assistant text when it contains `<task_summary>`, and is unchanged otherwise |
| `Network.SummaryAfterResponse` | genetix/src/inngest/functions.ts:111-114 | a stored summary is exactly the marked text and is truthy; an unmarked reply leaves `summary` as it was |
| `Network.Router` | genetix/src/inngest/functions.ts:124-128 | returns no agent iff `summary` is truthy, otherwise the code agent |
| `Network.TurnCount` | genetix/src/inngest/functions.ts:120-129 | the number of turns played is never more than `maxIter` = 15 |
| `Network.CallsKeepSummary` | genetix/src/inngest/functions.ts:57-100 | no tool call changes `summary` |
| `Network.UnmarkedTurnsKeepSummary` | genetix/src/inngest/functions.ts:111-114 | turns without the marker leave `summary` unchanged |
| `Network.TurnCountFrom` | genetix/src/inngest/functions.ts:120-129 | from turn i, with no earlier marker, the run stops right after the first marked turn or at the cap |
| `Network.FreshRunStopsAtFirstSummary` | genetix/src/inngest/functions.ts:109-131 | a fresh run plays 1 to 15 turns and no turn after the marked one. The final summary is that turn's text, or undefined when the cap ends an unmarked run |
| `Network.NeverMarkedRunsToCap` | genetix/src/inngest/functions.ts:123 | a model that never emits the marker is stopped after exactly 15 turns, with no summary |
| `Network.FirstMarkEndsRun` | genetix/src/inngest/functions.ts:111-128 | when the marker first appears on turn j + 1, the run plays exactly j + 1 turns and keeps that text as summary |
| `Network.CallsNeverRemoveFiles` | genetix/src/inngest/functions.ts:57-100 | no tool call of a turn removes a path from `files` |
| `Network.RunNeverRemovesFiles` | genetix/src/inngest/functions.ts:64-77 | over a whole run `files` only grows |
| `Network.ExecuteTurn` | genetix/src/inngest/functions.ts:103-118 | runs the hook on the model's reply and then the reply's tool calls one at a time, keeping `files` a non-string and matching `ApplyTurn` |
| `Network.RunNetwork` | genetix/src/inngest/functions.ts:120-131 | asks the router before each turn and stops when it names no agent or after 15 turns. The final state is the value-level `Advance` over the turns played |
| `Network.HelloWorld` | genetix/src/inngest/functions.ts:11-144 | fails with the error when `Sandbox.create` throws, before any turn, or when the `get-sandbox-url` step throws. Otherwise returns `url = "https://" + host` and `title = "Fragment"`. `files` is the final state's. `summary` is the text of the turn that ended the run when it was marked, and undefined otherwise |
| `Workspace.Sandbox.Write` | genetix/src/inngest/functions.ts:67 | a write stores the content under the path |
| `Workspace.Sandbox.Read` | genetix/src/inngest/functions.ts:91 | a read returns the stored content, or an error for a missing path |
| `JsText.Utf16LengthBounds` | genetix/src/modules/messages/server/procedures.ts:18-21 | the JavaScript length lies between the character count and twice it, and is 0 only for the empty string |
| `Messages.Issues` | genetix/src/modules/messages/server/procedures.ts:16-23 | input is accepted iff `value` is non-empty and at most 10000 UTF-16 code units long, and `projectId` is non-empty. Each message is reported exactly in its own case |
| `Messages.ValueLengthInCharacters` | genetix/src/modules/messages/server/procedures.ts:18-20 | an accepted value has at most 10000 characters; a value of up to 5000 characters is never too long |
| `Messages.MessagesRouter.Create` | genetix/src/modules/messages/server/procedures.ts:15-41 | rejected input stores and sends nothing. Valid input stores exactly one USER/RESULT message with the input's `projectId` and `content = value`, then sends exactly one `code-agent/run` event with payload `{value, projectId}`, then returns the stored message. A store failure sends nothing. A send failure leaves the message stored |
| `Messages.MessagesRouter.GetMany` | genetix/src/modules/messages/server/procedures.ts:6-14 | returns every stored message, each as often as stored, ordered by `updatedAt` ascending |
| `Messages.Insert` | genetix/src/modules/messages/server/procedures.ts:9-11 | inserting into an ascending list keeps it ascending and adds exactly that message |
| `Messages.SortByUpdatedAt` | genetix/src/modules/messages/server/procedures.ts:8-13 | the result is ascending by `updatedAt` and a permutation of the table |
| `Messages.AscendingPairwise` | genetix/src/modules/messages/server/procedures.ts:9-11 | in an ascending list every earlier message has an `updatedAt` no later than every later one |

## Left out

- Durable steps: `step.run` runs its closure exactly once. Memoisation, replay and the reused step labels (`"terminal"` on every call) are not modelled, nor is a missing `step` (`step?.run`).
- Agent-kit internals: the message history, tool dispatch and schema checking of tool arguments are not modelled. The router is asked before every turn, and the loop stops after `maxIter` = 15 turns.
- The language model: each reply is an input `Turn` holding its tool calls and its last assistant text. What `lastAssistantTextMessageContent` extracts is part of that input; its code is not part of this model. A provider failure, which would abort the run, is not modelled.
- `Network.RunNetwork`, `Network.HelloWorld`: they require one reply per possible turn (`|replies| >= 15`). The replies are the environment's choice, not a demand of the source.
- Tool results flowing back to the model: `terminal` and `readFiles` results are computed and then dropped, since the conversation is not modelled. `createOrUpdateFiles` returns nothing to the model in the source either.
- Sandbox calls are remote I/O:
  - `Sandbox.create` becomes a template map.
  - `getHost(3000)` becomes the `host` input.
  - Each failure inside a tool's sandbox session is a `Fault`; a failing operation has no effect on the sandbox.
  - A throw from `Sandbox.create` or from the `get-sandbox-url` step is an error input of `Network.HelloWorld`, which then returns `Err`. Inngest's retries are not modelled.
  - The sandbox id is not modelled.
  - The sandbox map matches paths exactly as given. E2B's resolution of relative paths against `/home/user` is not modelled, so `app/page.tsx` and `/home/user/app/page.tsx` are two keys here.
  - The text of E2B's errors is not modelled. A thrown value is represented by its string form, and a missing file reads as `NotFound(path)`.
- `Tools.Terminal`: the command's effects on sandbox files are not modelled. The streamed chunks and the outcome come from the environment, so `result.stdout` is not tied to the streamed stdout.
- Result persistence and success/error classification: the source has no such code. The function only returns its state.
- `JsonEntries.ParseEntries` reads only the compact text the serialiser writes: no white space and no surrogate-pair escapes. Lone surrogates cannot occur because the model's strings hold Unicode scalar values.
- Prisma and the event client: the table and the outbox are sequences.
  - Message ids and the database columns this code does not set are left out; `createdAt` and `updatedAt` are the `now` parameter.
  - Rows with equal `updatedAt` keep table order here; the database does not promise any order for them.
  - Store and send failures are parameters; the tRPC error shape is not modelled.
- `genetix/src/prompt.ts`, `genetix/src/app/page.tsx` and `genetix/src/trpc/routers/_app.ts` are configuration, UI and wiring, and are not part of this model.
