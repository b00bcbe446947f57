# Command context and line counter of a chat bot, modelled in Dafny

This project models two parts of a chat bot written in TypeScript on the
discord.js SDK.

**The command context** (`src/structures/CommandContext.ts`) wraps the one
handle that triggered a command. That handle is either a posted channel
message or an interaction: a slash command, a context-menu command, a
button, a select menu or another kind. Callers get one `reply` / `send` /
`deferReply` / `delete` surface whatever the handle is.

The model is in `command_context.dfy` (module `CommandContexts`) and
`platform.dfy` (module `Platform`):

- The handle is a tagged union, `Handle`, and its class is `Kind`. The
  variant tests `isMessage` … `isSelectMenu` and the getters `deferred`,
  `replied`, `options` and `member` are functions over it.
- Each operation is specified by a pure function that returns an `Effect`.
  An `Effect` holds the outcome (a message, or the error's message text)
  and the SDK calls issued, in order, as `Call` values.
- The SDK's answer to each call is an input, `Answers`. Its fields are the
  deferral, the delivery (which may come back without a message object),
  the re-fetch (which may fail), the channel post and the removal.
- Mutable state is held in classes. `Interaction` is the SDK object whose
  `deferred` / `replied` flags the SDK sets. `MessageOptions` is the
  caller's options object, on which `send` sets `fetchReply`.
  `CommandContext` holds the wrapped handle and the trace of calls issued
  through it.
- The methods `CommandContext.DeferReply`, `Send`, `Reply` and `Delete` are
  proved to return what the matching `Effect` function says. They are also
  proved to append exactly its calls to the trace and to leave the
  interaction's flags as the SDK's bookkeeping (`Acknowledge`) says.

**The `totalcode` command** (`src/commands/infos/totalcode.ts`) counts the
lines of the bot's own source files and replies with the file count and the
line total. The model is in `total_code.dfy` (module `TotalCode`). It takes
the glob's outcome and a function from path to file contents as inputs.
`split("\n")`, the `reduce` without an initial value, and the decimal
rendering of the counts are written out. Beside them are an inverse
(`Join`) and a reader (`ParseSummary`) against which they are proved.

Three behaviours of the code are easy to misread:

- `reply` rewraps every failure of `send` with "Unable to reply context,
  because: ". That includes the ephemeral rejection and the null-channel
  `TypeError`, not only failures of the platform call.
- `delete` is a no-op for every non-command interaction, including kinds
  other than buttons and select menus.
- `deferReply` calls the SDK's `deferReply` for every interaction kind,
  buttons and select menus included; only a message context skips it.

## Model

| member | source | states |
|---|---|---|
| CommandContexts.IsInteraction | src/structures/CommandContext.ts:102-104 | holds exactly for the five interaction classes |
| CommandContexts.IsMessage | src/structures/CommandContext.ts:98-100 | holds exactly when `isInteraction` does not: the two tests are mutually exclusive and cover every handle |
| CommandContexts.IsCommand | src/structures/CommandContext.ts:106-108 | holds exactly for slash-command and context-menu interactions, which are interactions and not messages |
| CommandContexts.IsButton | src/structures/CommandContext.ts:110-112 | a button is an interaction but not a command |
| CommandContexts.IsSelectMenu | src/structures/CommandContext.ts:114-116 | a select menu is an interaction, not a command and not a button |
| CommandContexts.Deferred | src/structures/CommandContext.ts:33-35 | false for every non-command handle (message, button, select menu, other); for a command, the SDK's flag |
| CommandContexts.Replied | src/structures/CommandContext.ts:37-39 | false for every non-command handle; for a command, the SDK's flag |
| CommandContexts.CommandOptions | src/structures/CommandContext.ts:53-55 | present exactly for commands, and then the interaction's options; null for message, button and select-menu handles |
| CommandContexts.Member | src/structures/CommandContext.ts:49-51 | fails with the null-read error exactly when the handle has no guild; otherwise names the author within that guild |
| CommandContexts.IsReplied | src/structures/CommandContext.ts:62 | `isReplied` holds exactly for a command whose raw `replied` or `deferred` flag is set |
| CommandContexts.ReplyMode | src/structures/CommandContext.ts:62-67 | `reply` uses `editReply` iff `isReplied`, else `reply`, never `followUp`; every non-command handle uses `reply` |
| CommandContexts.ForceFetchReply | src/structures/CommandContext.ts:78 | an object payload gets `fetchReply = true` and nothing else changes; a string payload is left untouched |
| CommandContexts.DeferEffect | src/structures/CommandContext.ts:57-59 | an interaction issues one `deferReply` call and passes its outcome through; a message issues nothing and succeeds |
| CommandContexts.SendEffect | src/structures/CommandContext.ts:73-88 | message + ephemeral: fails with the ephemeral error and no call; message otherwise: exactly one channel send, whose outcome is returned; interaction: delivers by `mode` with `fetchReply` forced, then fetches by the delivered id; returns the fetched message, else the delivered one exactly; delivery errors pass unchanged |
| CommandContexts.Rewrapped | src/structures/CommandContext.ts:67-68 | a success passes unchanged; a failure gets the message "Unable to reply context, because: " + the original message |
| CommandContexts.ReplyEffect | src/structures/CommandContext.ts:61-71 | with `isReplied` and `autoedit` off, fails with exactly "Interaction is already replied." and no call; otherwise issues exactly the calls of `send` in `ReplyMode`, returns its success and rewraps its failure |
| CommandContexts.DeleteEffect | src/structures/CommandContext.ts:90-96 | at most one call: `deleteReply` for a command, the message's `delete` for a message, none (and success) for any other interaction; deletion errors pass unchanged |
| CommandContexts.AcknowledgedStaysAcknowledged | src/structures/CommandContext.ts:61-67 | once a command is deferred or replied to, every later `reply` routes to `editReply` whatever calls follow |
| CommandContexts.DeferThenReplyEdits | src/structures/CommandContext.ts:57-67 | a fresh command replies with `reply`; after a successful `deferReply` it replies with `editReply`, and with `autoedit` off it conflicts |
| CommandContexts.ReplyThenReplyEdits | src/structures/CommandContext.ts:61-67 | after a first successful reply to a fresh command, the next reply is an edit |
| CommandContexts.ComponentRepliesAreFresh | src/structures/CommandContext.ts:62-67 | button and select-menu contexts always deliver with `reply` and never conflict, whatever their raw flags and history |
| CommandContexts.MessageReplyPostsOnce | src/structures/CommandContext.ts:61-87 | a reply on a message context with a channel is one channel send of the given text; its result is returned (rewrapped on failure) and the handle is unchanged |
| CommandContexts.EphemeralReplyOnMessageFailsEarly | src/structures/CommandContext.ts:61-86 | an ephemeral reply on a message fails with the rewrapped ephemeral error before any call |
| CommandContexts.ReplyFailureShape | src/structures/CommandContext.ts:61-71 | every `reply` failure is either the bare already-replied error with no call issued, or starts with the rewrap prefix |
| CommandContexts.CommandContext.constructor | src/structures/CommandContext.ts:23-27 | holds the given handle, arguments and prefix; no call issued yet |
| CommandContexts.CommandContext.DeferReply | src/structures/CommandContext.ts:57-59 | returns `DeferEffect`'s outcome, appends its calls, and the SDK marks a successfully deferred interaction as deferred |
| CommandContexts.CommandContext.Send | src/structures/CommandContext.ts:73-88 | returns `SendEffect`'s outcome and appends its calls; on an interaction sets `fetchReply` on the caller's options object, otherwise leaves it as it was |
| CommandContexts.CommandContext.Reply | src/structures/CommandContext.ts:61-71 | returns `ReplyEffect`'s outcome and appends its calls; the options object is touched only when `send` runs on an interaction |
| CommandContexts.CommandContext.Delete | src/structures/CommandContext.ts:90-96 | returns `DeleteEffect`'s outcome and appends its calls; nothing else changes |
| CommandContexts.DeferredCommandScenario | src/structures/CommandContext.ts:57-82 | a fresh slash command that defers and then replies issues deferral, an `editReply` with `fetchReply` set, and a fetch by the delivered id, and returns the fetched message |
| TotalCode.Split | src/commands/infos/totalcode.ts:27 | `split("\n")` yields at least one piece, and no piece contains a newline |
| TotalCode.JoinSplit | src/commands/infos/totalcode.ts:27 | splitting loses nothing: gluing the pieces back with newlines gives the text |
| TotalCode.SplitJoin | src/commands/infos/totalcode.ts:27 | splitting newline-free pieces glued with newlines gives those pieces back |
| TotalCode.SplitLength | src/commands/infos/totalcode.ts:27 | the number of pieces is the number of newlines plus one |
| TotalCode.LineCount | src/commands/infos/totalcode.ts:27 | a file's line count is its number of `'\n'` characters plus one, so an empty file counts as one line |
| TotalCode.FoldIsSum | src/commands/infos/totalcode.ts:27 | the left fold with `+` from a seed equals the seed plus the sum |
| TotalCode.Reduce | src/commands/infos/totalcode.ts:27 | `reduce((a, b) => a + b)` on a non-empty sequence is its sum |
| TotalCode.SumOfLineCounts | src/commands/infos/totalcode.ts:27 | the summed per-file counts equal all newlines plus the number of files |
| TotalCode.TotalLines | src/commands/infos/totalcode.ts:27 | the reported total is all newlines plus the number of files, so it is at least the number of files |
| TotalCode.Map | src/commands/infos/totalcode.ts:23 | the result has the input's length and holds `f` applied to the element at each index |
| TotalCode.SumPermutation | src/commands/infos/totalcode.ts:27 | the sum does not depend on the order of its terms |
| TotalCode.MapPermutation | src/commands/infos/totalcode.ts:23 | mapping a permutation of the paths or contents gives a permutation of the results |
| TotalCode.TotalLinesPermutation | src/commands/infos/totalcode.ts:23-27 | permuting the file contents leaves the reported total unchanged |
| TotalCode.Decimal | src/commands/infos/totalcode.ts:27 | a count renders as a non-empty string of decimal digits |
| TotalCode.DecimalRoundTrip | src/commands/infos/totalcode.ts:27 | reading the rendered digits back gives the count |
| TotalCode.Summary | src/commands/infos/totalcode.ts:27 | the embed text is exactly two lines: "Files: " with the file count, then "Lines: " with the line total |
| TotalCode.SummaryRoundTrip | src/commands/infos/totalcode.ts:27 | the embed text "Files: …\nLines: …" reads back to exactly the two counts |
| TotalCode.Execute | src/commands/infos/totalcode.ts:15-30 | a glob error replies with only the fixed notice and no count is computed; otherwise one "success" embed whose text states the number of matched paths and the total line count of their contents |
| TotalCode.ExecuteOrderIndependent | src/commands/infos/totalcode.ts:16-27 | the reply does not depend on the order in which the glob lists the files |

## Left out

- The discord.js network calls (`deferReply`, `reply`, `editReply`, `followUp`, `deleteReply`, `delete`, `channel.send`, `messages.fetch`) are foreign code. Each is an abstract `Call`, and its outcome is an input (`Answers`).
- Acknowledge: this is the SDK's bookkeeping, not the bot's code. It sets `deferred` after a fulfilled deferral and `replied` after a fulfilled `reply` or `editReply`. The SDK may also set `replied` when the reply was posted but fetching it then failed; the model does not capture that case.
- Promise scheduling and interleaving between concurrent commands: each context is used sequentially by one task.
- The `author`, `channel` and `guild` getters are plain projections of the handle (`Author`, `Channel`, `Guild`) with no contract of their own.
- Member: the `guild.members.resolve` lookup is not modelled. The result names the (guild, author) pair to look up and cannot be null.
- The `additionalArgs` collection is plain storage with no logic, and is not modelled. `args` and `prefix` are stored by the constructor. The prefix's default value comes from a config module that is not part of this model.
- The default arguments `args = []` of the constructor (`src/structures/CommandContext.ts:25`) and `autoedit = true` of `reply` (`src/structures/CommandContext.ts:61`) are not modelled as defaults: every caller of the model passes them explicitly.
- `MessagePayload` options are not modelled separately. They would behave as object options without `ephemeral`.
- The `TypeError` texts for reading from `null` or `undefined` (null channel, missing delivered message, missing guild) are the Node.js engine's wording. Other engines word them differently.
- `glob`, `readFileSync` and `path.resolve` are file-system I/O. The glob's outcome and a path-to-contents function are inputs, and a failing read is not modelled.
- Decimal: counts and sums are unbounded naturals. JavaScript numbers are exact only below 2^53, and a template literal renders numbers from 10^21 upward in exponent notation. Neither limit is modelled; a source tree that large is out of reach.
- Execute: with an empty match, `reduce` without an initial value would throw inside the glob callback. That case is excluded by a precondition.
- `createEmbed` and the `BaseCommand` / `CommandQueryContext` plumbing are not part of this model. The embed is a value holding its style and text, and `Execute` returns the payload handed to the context's `reply`.
