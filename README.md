# Sourcegraph MCP adapter: formatter, handlers and process runner

This project models the core of a small protocol adapter. The adapter exposes Sourcegraph code search to an AI agent host as MCP tools. Each tool call runs the `src` command-line tool as a child process and turns its output into text.

The model covers three parts:

- **The result formatter** (`Formatters`, for `src/formatters.ts`). `formatSearchResults` takes the JSON text printed by `src search --json`. If parsing or rendering throws, it returns that text unchanged. For anything other than a non-empty array it returns "No results found.". Otherwise it renders one block per element, numbered from 1, and joins the blocks with `"\n---\n\n"`. Each block has a header line, then optional `Repository:`, `File:` and `Line:` lines and a trimmed code section. Each optional part appears only when its field is truthy. `formatVersionInfo` puts a fixed banner in front of the version text. The JavaScript semantics the formatter depends on are modelled in their own modules: truthiness, property reads (`null` throws), template-literal conversion (`Json`), and `trim`, `join` and integer-to-decimal (`JsText`).
- **The handlers** (`Handlers`, for `src/index.ts`). `hello` and the `echo` resource make no runner call, so each is one function from its parameters to its response (`HelloTool`, `EchoResource`). The three tools that run `src` are split in two. One function gives the runner call the tool makes: `Sourcegraph.TestConnectionCall` for `testSourcegraphConnection`, `SearchCall` for `search`, and `FileContentCall` (built on `FileQuery`) for `getFileContent`. A second function builds the tool's response from the runner's outcome, `Ok(text)` or `Err(message)`: `TestConnectionResponse`, `SearchResponse` and `FileContentResponse`.
- **The process runner** (`Sourcegraph`, for `src/sourcegraph.ts`). The class `Execution` is one call of `executeSrcCommand`. Its constructor runs the availability probe. When the probe succeeds it spawns the child with the argument vector `[command] ++ args` and the child environment; when `spawn` itself throws, the promise is rejected with what it threw. Its methods are the child's events. A `data` event on stdout or stderr (`OnData`) appends a chunk to that stream's buffer. `close(code)` and `error(msg)` settle the promise, and only the first of them counts. The ghost `history` of events ties the buffers and the promise state to trace functions (`Output`, `Chunks`, `Settle`), and lemmas about those functions state the runner's guarantees.

Inputs stand in for the I/O:

- the outcome of `JSON.parse` (a `ParseOutcome`, or a `parse` function in the handlers);
- JavaScript's number-to-text conversion (`show: real -> string`);
- whether the probe succeeded, and whether `spawn` threw (with its message);
- the parent environment, as a map;
- the installation directory;
- the events the child emits.

## Model

| member | source | states |
|---|---|---|
| Formatters.FormatSearchResults | src/formatters.ts:4-44 | A parse error returns the raw input exactly. A parsed value that is not a non-empty array returns exactly "No results found.". |
| Formatters.RenderBlocks | src/formatters.ts:12-37 | The map over the results succeeds iff every element renders. On success it yields one block per element, in input order, and block k is the rendering of element k with number k+1. |
| Formatters.RenderFailureYieldsRaw | src/formatters.ts:12-42 | If any element's rendering throws, the whole report is the raw input. |
| Formatters.NullElementYieldsRaw | src/formatters.ts:17-42 | A `null` element anywhere in the array makes the report equal the raw input, because reading a property of null throws. |
| Formatters.NonStringContentYieldsRaw | src/formatters.ts:32-42 | A truthy `content` that is not a string makes the report equal the raw input, because calling `.trim()` on it throws. |
| Formatters.BlockStartsWithHeader | src/formatters.ts:14 | Specifies `RenderBlock`: every block it produces begins with `"Result " + index + ":\n"`. |
| Formatters.FieldLineCases | src/formatters.ts:17-29 | Specifies `FieldLine`. The line is empty iff the field is falsy. It fails iff a truthy field cannot be written. Otherwise it is the label, the field's template-literal text and a newline. |
| Formatters.CodeSectionCases | src/formatters.ts:32-34 | Specifies `CodeSection`. The section is empty iff `content` is falsy. It fails iff a truthy `content` is not a string. Otherwise it is "\nCode:\n", the trimmed content, and a newline. |
| Formatters.EmptyObjectBlock | src/formatters.ts:13-37 | An object with none of the four keys renders to its header line alone. |
| Formatters.StringFieldLine | src/formatters.ts:17-24 | A string field gives its line exactly when it is present and non-empty. |
| Formatters.NumberFieldLine | src/formatters.ts:27-29 | A number field gives its line exactly when it is present and non-zero, and the number is written by JavaScript's number-to-text conversion. |
| Formatters.MatchMembers | src/formatters.ts:17-32 | Specifies `Json.Member` on a search match: each of the four reads gives the field when the key is present and `undefined` when it is absent. |
| Formatters.BlocksInOrder | src/formatters.ts:12-38 | For N ≥ 1 elements that all render, the report is the N blocks joined by the separator. It splits at every separator into the earlier and later blocks, and block k begins with header k+1. |
| Formatters.FormatEmptyIff | src/formatters.ts:5-43 | The report is empty iff the raw input is empty and the formatter fell back to it (a parse error, or an element that threw). |
| Formatters.MatchBlock | src/formatters.ts:13-37 | Specifies `RenderBlock` on search matches: for any match, with any of its four keys absent, the block is the header followed by the Repository, File, Line and Code lines, in that order. Each line is present iff its field is present and non-empty (non-zero for the line number). The code is trimmed and followed by a newline. |
| Formatters.MatchesRender | src/formatters.ts:12-37 | Every search match renders, and the list of blocks is the list of intended blocks, numbered 1..N in input order. |
| Formatters.MatchesFormat | src/formatters.ts:7-38 | For a non-empty array of search matches, with any keys absent, the report is their intended blocks, numbered 1..N in input order and joined by `"\n---\n\n"`. |
| Formatters.FormatVersionInfo | src/formatters.ts:49-52 | The output is the banner "Sourcegraph CLI Version Information:\n" followed by the version text, which can be read back after the banner. |
| Json.FalsyValues | src/formatters.ts:17-32 | Specifies `Json.Truthy`: a property read is falsy iff it is `undefined`, `null`, `false`, `0` or `""`. |
| Json.ArrayConversion | src/formatters.ts:18-28 | Specifies `Json.ToJsString` on arrays: `${array}` converts iff every element is `null` or converts itself. It is then the element texts joined by ",", with `null` written as nothing. |
| JsText.TrimStart | src/formatters.ts:33 | The result is no longer than the input and does not start with whitespace. |
| JsText.TrimStartDropsWhitespace | src/formatters.ts:33 | What `TrimStart` keeps is a suffix of the input, and everything it drops in front of that suffix is whitespace. |
| JsText.TrimEnd | src/formatters.ts:33 | The result is no longer than the input and does not end with whitespace. |
| JsText.TrimEndDropsWhitespace | src/formatters.ts:33 | What `TrimEnd` keeps is a prefix of the input, and everything it drops after that prefix is whitespace. |
| JsText.Trim | src/formatters.ts:33 | The result is no longer than the input and neither starts nor ends with whitespace. |
| JsText.TrimBlank | src/sourcegraph.ts:64 | Text made only of whitespace trims to the empty string. |
| JsText.TrimUnique | src/sourcegraph.ts:64 | Trimming whitespace + r + whitespace gives back r, for every r whose ends are not whitespace. So `trim` is determined by its contract. |
| JsText.TrimKeepsTrimmed | src/sourcegraph.ts:64 | A text whose first and last characters are not whitespace is left unchanged. |
| JsText.TrimIdempotent | src/sourcegraph.ts:64 | Trimming twice gives the same result as trimming once. |
| JsText.AllWhitespaceConcat | src/formatters.ts:33 | A concatenation is all whitespace iff both of its halves are. |
| JsText.JoinSplitAt | src/formatters.ts:38 | Specifies `JsText.Join`: a join splits at the k-th separator into the join of the first k parts and the join of the rest. |
| JsText.JoinConcat | src/formatters.ts:38 | Joining two non-empty lists one after the other gives the join of the first, one separator, and the join of the second. |
| JsText.JoinStartsWithFirst | src/formatters.ts:38 | The first part is a prefix of the join. |
| JsText.MapIndexed | src/formatters.ts:12-37 | `map` with a callback that may throw succeeds iff the callback succeeds on every element. On success it has one result per element, and result k is the callback on element k and index k. |
| JsText.NatToString | src/formatters.ts:14 | The decimal text of a natural number is non-empty, all digits, and has no leading zero. |
| JsText.DecimalRoundTrip | src/index.ts:88 | Reading the decimal text of n back as a number gives n. |
| JsText.IntToString | src/sourcegraph.ts:67 | The text of an integer starts with '-' exactly when the integer is negative. The rest is a non-empty run of digits without a leading zero whose decimal value is the magnitude of the integer. |
| Sourcegraph.FullCommand | src/sourcegraph.ts:39 | The argument vector is the command followed by the arguments, which default to none. |
| Sourcegraph.TestConnectionCall | src/sourcegraph.ts:81-83 | `testConnection` spawns exactly `["version"]`. |
| Sourcegraph.ChildEnvCopiesParent | src/sourcegraph.ts:27-36 | Specifies `ChildEnv`: every variable other than SRC_ACCESS_TOKEN and SRC_ENDPOINT is present in the child environment iff it is present in the parent, with the same value. |
| Sourcegraph.ChildSeesParentWithEndpoint | src/sourcegraph.ts:27-36 | The child receives the parent environment with only SRC_ENDPOINT replaced: it becomes "https://sourcegraph.com" when unset or empty, and keeps the parent's value otherwise. The token passes through unchanged. |
| Sourcegraph.CloseOutcome | src/sourcegraph.ts:62-69 | A `close` event always settles the promise. |
| Sourcegraph.CloseOutcomeCases | src/sourcegraph.ts:62-69 | `close` resolves iff the code is 0, and then with the trimmed stdout. Any other code, or a null code, rejects with "src-cli command failed with code <code>: <stderr>". |
| Sourcegraph.OutputIsConcatenation | src/sourcegraph.ts:51-60 | Specifies `Output` and `Chunks`: each stream's buffer is the in-order concatenation of the chunks that arrived on that stream. |
| Sourcegraph.OutputIgnoresOtherEvents | src/sourcegraph.ts:54-60 | Two histories with the same chunks on a stream have the same buffer for it, so chunks on the other stream never affect it. |
| Sourcegraph.SettledStaysSettled | src/sourcegraph.ts:62-74 | Specifies `Settle`: once the promise has settled, no later event changes its state. |
| Sourcegraph.PendingIffNoTerminal | src/sourcegraph.ts:62-74 | The promise is pending iff no `close` or `error` event has arrived. |
| Sourcegraph.SettlesAtFirstTerminal | src/sourcegraph.ts:62-74 | The first `close` or `error` event decides the outcome, using the buffers collected before it. |
| Sourcegraph.Execution.constructor | src/sourcegraph.ts:14-52 | If the probe fails, nothing is spawned and the call fails with the not-installed message. If `spawn` throws, nothing is spawned and the promise is rejected with what it threw. Otherwise it spawns `<dir>/node_modules/.bin/src` with `[command] ++ args` and the parent environment with SRC_ENDPOINT defaulted, with empty buffers and a pending promise. |
| Sourcegraph.Execution.OnData | src/sourcegraph.ts:54-60 | A chunk on stdout grows the stdout buffer only, and a chunk on stderr the stderr buffer only. The promise is unchanged. |
| Sourcegraph.Execution.OnClose | src/sourcegraph.ts:62-70 | A pending promise settles to the close outcome of the current buffers. A settled one is unchanged. |
| Sourcegraph.Execution.OnError | src/sourcegraph.ts:72-74 | A pending promise is rejected with "Failed to execute src-cli: " + message. A settled one is unchanged. |
| Sourcegraph.Execution.Outcome | src/sourcegraph.ts:25-75 | A resolved promise gives `Ok` with its value, and a rejected one gives `Err` with its message. |
| Handlers.EchoResource | src/index.ts:17-28 | The `echo` resource returns one block with the request URI and "Resource echo: " followed by the message. |
| Handlers.HelloGreets | src/index.ts:31-38 | Specifies `HelloTool`: with no name it yields "Hello, World!". With a name, even an empty one, it greets that name, and it is never an error. |
| Handlers.ConnectionShowsVersion | src/index.ts:44-54 | Specifies `TestConnectionResponse` on success: the response shows the version text after the banner. |
| Handlers.SearchCall | src/index.ts:75-90 | `search` calls `search` with exactly `[query, "-n", limit, "--json"]`, and the limit text reads back as the given limit, or 10 when omitted. |
| Handlers.SearchArgv | src/index.ts:83-90 | The spawned vector for `search` is `["search", query, "-n", String(limit ?? 10), "--json"]`, and its count lies in [1,100]. |
| Handlers.SearchShowsMatches | src/index.ts:83-98 | Specifies `SearchResponse` on success: a search whose output parses to N ≥ 1 matches answers with their blocks, numbered 1..N and separated. |
| Handlers.FileContentArgv | src/index.ts:127-136 | Specifies `FileQuery` and `FileContentCall`: the spawned vector is `search`, then `"repo:^" + repository + "$ file:^" + path + "$ rev:" + revision`, then `-n 1 --json`, with the revision defaulting to HEAD. |
| Handlers.FileContentShowsMatches | src/index.ts:127-147 | Specifies `FileContentResponse` when matches are found: the answer is their blocks, never "File not found or empty.". |
| Handlers.FileNotFoundOnEmptyOutput | src/index.ts:139-147 | If the empty text does not parse, `getFileContent` answers "File not found or empty." exactly when the runner output is empty. Otherwise it answers with the formatted report. |
| Handlers.FailuresBecomeErrorResults | src/index.ts:44-158 | Every response of `TestConnectionResponse`, `SearchResponse` and `FileContentResponse` has one text block, and it is an error iff the runner failed. An error's text is the handler's own prefix followed by the failure message. |
| Handlers.BlankOutputIsFileNotFound | src/index.ts:131-147 | A child that exits with code 0 after printing only whitespace resolves to "", and `getFileContent` then answers "File not found or empty.". |

## Left out

- Running processes is not modelled. The `exec` probe, `spawn`, the event-emitter wiring, `path.resolve(__dirname, "../")` and reading `process.env` are OS I/O. The probe result, the installation directory, the parent environment and the child's events are inputs instead.
- Promises, `async` and concurrent handler invocations are not modelled. The promise is modelled as its state (`Settlement`), and handlers receive the settled outcome.
- The MCP server object, tool and resource registration, the stdio transport and `start()` are left out. They are a foreign SDK and I/O.
- `JSON.parse` and zod schema checking are library calls and are not modelled. The parse outcome is an input, and the zod constraints become preconditions (`ValidLimit`) or parameter types.
- All `console.error` diagnostic logging is left out.
- Parsed JSON numbers are reals. `JSON.parse` gives `Infinity` for an out-of-range literal such as `1e999`, and the model cannot hold that value.
- JavaScript's number-to-text conversion for `lineNumber` and other numbers in fields is a parameter `show`. Block numbers and the search limit are integers, which JavaScript writes in plain decimal, and they use `NatToString`.
- Decoding of child output is not modelled: chunks arrive as strings, and `Buffer.toString()` (including multi-byte characters split across chunks) is left out. Characters are Unicode scalar values, so lone UTF-16 surrogates cannot be represented.
- The echo `message` from the URI template is modelled as a single string. The template can also produce a list, which a template literal writes joined by commas.
- Handler errors are modelled by their message, because every error thrown on these paths is an `Error`. The `String(error)` branch for non-`Error` values is not modelled.
- A success response in the source has no `isError` key. It is modelled as `isError == false`.
- How Sourcegraph interprets the queries is not modelled. Regular-expression characters in `repository` or `path` reach the query unescaped, as in the source.
