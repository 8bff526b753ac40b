/**
 * The tool and resource handlers of src/index.ts. Each handler is split into the
 * call it makes to the process runner (an `Invocation`) and the response it
 * builds from the call's outcome: `Ok` with the runner's text, or `Err` with the
 * message of the error it threw. Parameters arrive already validated; the
 * validation constraints appear as preconditions.
 */
module Handlers {
  import opened Results
  import opened JsText
  import opened Json
  import opened Formatters
  import opened Sourcegraph

  /** A `{type: "text", text}` content block. */
  datatype TextBlock = Text(text: string)

  /** A tool response; a success response carries no error flag, modelled as `false`. */
  datatype ToolResult = ToolResult(content: seq<TextBlock>, isError: bool)

  /** A resource read response: the blocks of `contents`, each with its URI and text. */
  datatype ResourceContent = ResourceContent(uri: string, text: string)

  const DefaultName := "World"
  const DefaultLimit := 10
  const DefaultRevision := "HEAD"
  const FileNotFound := "File not found or empty."
  const ConnectionErrorPrefix := "Error connecting to Sourcegraph: "
  const SearchErrorPrefix := "Error executing search: "
  const FileErrorPrefix := "Error retrieving file content: "

  function Success(text: string): ToolResult {
    ToolResult([Text(text)], false)
  }

  function Failure(prefix: string, message: string): ToolResult {
    ToolResult([Text(prefix + message)], true)
  }

  /** The `echo` resource: one block with the request URI and the echoed message. */
  function EchoResource(href: string, message: string): (r: seq<ResourceContent>)
    ensures |r| == 1 && r[0].uri == href
    ensures |r[0].text| == |"Resource echo: "| + |message|
    ensures r[0].text[..|"Resource echo: "|] == "Resource echo: "
    ensures r[0].text[|"Resource echo: "|..] == message
  {
    [ResourceContent(href, "Resource echo: " + message)]
  }

  /** The `hello` tool: greets the given name, "World" when it is omitted. */
  function HelloTool(name: Option<string>): ToolResult {
    Success("Hello, " + name.GetOr(DefaultName) + "!")
  }

  /** `testSourcegraphConnection`: the version text under its banner, or the connection error. */
  function TestConnectionResponse(outcome: Result<string, string>): ToolResult {
    match outcome
    case Ok(versionInfo) => Success(FormatVersionInfo(versionInfo))
    case Err(message) => Failure(ConnectionErrorPrefix, message)
  }

  /** The validated `limit` of `search`: omitted, or an integer from 1 to 100. */
  predicate ValidLimit(limit: Option<int>) {
    limit.None? || 1 <= limit.value <= 100
  }

  /** The runner call of `search`: the query, a result count (10 by default) and JSON output. */
  function SearchCall(query: string, limit: Option<int>): (call: Invocation)
    requires ValidLimit(limit)
    ensures call.command == "search" && call.args.Some? && |call.args.value| == 4
    ensures call.args.value[0] == query && call.args.value[1] == "-n" && call.args.value[3] == "--json"
    ensures (forall i :: 0 <= i < |call.args.value[2]| ==> IsDigit(call.args.value[2][i]))
      && DecimalValue(call.args.value[2]) == limit.GetOr(DefaultLimit)
  {
    var count := limit.GetOr(DefaultLimit);
    DecimalRoundTrip(count);
    Invocation("search", Some([query, "-n", NatToString(count), "--json"]))
  }

  /** The response of `search`: the formatted results, or the search error. */
  function SearchResponse(outcome: Result<string, string>, parse: string -> ParseOutcome, show: real -> string): ToolResult {
    match outcome
    case Ok(output) => Success(FormatSearchResults(output, parse(output), show))
    case Err(message) => Failure(SearchErrorPrefix, message)
  }

  /** The query of `getFileContent`: the repository and the path anchored at both ends, and the revision. */
  function FileQuery(repository: string, path: string, revision: Option<string>): string {
    "repo:^" + repository + "$ file:^" + path + "$ rev:" + revision.GetOr(DefaultRevision)
  }

  /** The runner call of `getFileContent`: the file query, capped at one result, with JSON output. */
  function FileContentCall(repository: string, path: string, revision: Option<string>): Invocation {
    Invocation("search", Some([FileQuery(repository, path, revision), "-n", "1", "--json"]))
  }

  /** The response of `getFileContent`: the formatted results, "File not found or empty." in place of an empty report, or the error. */
  function FileContentResponse(outcome: Result<string, string>, parse: string -> ParseOutcome, show: real -> string): ToolResult {
    match outcome
    case Ok(output) =>
      var formatted := FormatSearchResults(output, parse(output), show);
      Success(if formatted != "" then formatted else FileNotFound)
    case Err(message) => Failure(FileErrorPrefix, message)
  }

  /** `hello` without a name greets the world; with a name, even an empty one, it greets that name. */
  lemma HelloGreets(name: Option<string>)
    ensures HelloTool(None) == Success("Hello, World!")
    ensures name.Some? ==> HelloTool(name).content == [Text("Hello, " + name.value + "!")]
    ensures !HelloTool(name).isError
  {
    assert "Hello, " + DefaultName + "!" == "Hello, World!";
  }

  /**
   * Every handler turns a runner failure into an error response holding one text
   * block, its own prefix followed by the failure message; every success is one
   * text block without the error flag.
   */
  lemma FailuresBecomeErrorResults(outcome: Result<string, string>, parse: string -> ParseOutcome, show: real -> string)
    ensures var responses := [TestConnectionResponse(outcome), SearchResponse(outcome, parse, show),
                              FileContentResponse(outcome, parse, show)];
      forall i :: 0 <= i < 3 ==> |responses[i].content| == 1 && (responses[i].isError <==> outcome.Err?)
    ensures outcome.Err? ==>
      && TestConnectionResponse(outcome).content[0].text == ConnectionErrorPrefix + outcome.error
      && SearchResponse(outcome, parse, show).content[0].text == SearchErrorPrefix + outcome.error
      && FileContentResponse(outcome, parse, show).content[0].text == FileErrorPrefix + outcome.error
  {
  }

  /** A successful connection test shows the version text, recoverable after the banner. */
  lemma ConnectionShowsVersion(versionInfo: string)
    ensures var text := TestConnectionResponse(Ok(versionInfo)).content[0].text;
      text[..|VersionBanner|] == VersionBanner && text[|VersionBanner|..] == versionInfo
  {
  }

  /**
   * The argument vector `getFileContent` spawns: `search`, the query anchoring the
   * repository and the path with the revision (HEAD when none is given), a cap of
   * one result, and JSON output.
   */
  lemma FileContentArgv(repository: string, path: string, revision: Option<string>)
    ensures FullCommand(FileContentCall(repository, path, revision)) ==
      ["search", "repo:^" + repository + "$ file:^" + path + "$ rev:" + revision.GetOr("HEAD"), "-n", "1", "--json"]
    ensures revision.None? ==> FileContentCall(repository, path, revision) == FileContentCall(repository, path, Some("HEAD"))
  {
  }

  /** The argument vector `search` spawns: `search`, the query, `-n` with the decimal limit (10 by default), `--json`. */
  lemma SearchArgv(query: string, limit: Option<int>)
    requires ValidLimit(limit)
    ensures FullCommand(SearchCall(query, limit)) == ["search", query, "-n", NatToString(limit.GetOr(10)), "--json"]
    ensures 1 <= DecimalValue(FullCommand(SearchCall(query, limit))[3]) <= 100
  {
    DecimalRoundTrip(limit.GetOr(10));
  }

  /**
   * "File not found or empty." replaces exactly the empty report, which needs an
   * empty runner output (`JSON.parse` rejects the empty text, and the formatter
   * then hands that text back).
   */
  lemma FileNotFoundOnEmptyOutput(output: string, parse: string -> ParseOutcome, show: real -> string)
    requires parse("") == ParseError
    ensures FileContentResponse(Ok(output), parse, show) ==
      Success(if output == "" then FileNotFound else FormatSearchResults(output, parse(output), show))
  {
    FormatEmptyIff(output, parse(output), show);
  }

  /** A search whose output parses to N >= 1 matches shows their blocks, numbered 1..N and separated. */
  lemma SearchShowsMatches(output: string, matches: seq<Match>, parse: string -> ParseOutcome, show: real -> string)
    requires matches != [] && parse(output) == Parsed(Array(MatchesJson(matches)))
    ensures SearchResponse(Ok(output), parse, show) == Success(Join(ExpectedBlocks(matches, show), Separator))
  {
    MatchesFormat(output, matches, show);
  }

  /** A file lookup that finds N >= 1 matches shows their blocks, never "File not found or empty.". */
  lemma FileContentShowsMatches(output: string, matches: seq<Match>, parse: string -> ParseOutcome, show: real -> string)
    requires matches != [] && parse(output) == Parsed(Array(MatchesJson(matches)))
    ensures FileContentResponse(Ok(output), parse, show) == Success(Join(ExpectedBlocks(matches, show), Separator))
  {
    var blocks := ExpectedBlocks(matches, show);
    MatchesFormat(output, matches, show);
    JoinStartsWithFirst(blocks, Separator);
    assert |Header(1)| > 0;
    assert blocks[0][..|Header(1)|] == Header(1) by {
      MatchBlock(matches[0], 1, show);
      BlockStartsWithHeader(MatchJson(matches[0]), 1, show);
    }
  }

  /**
   * End to end: when the child exits with code 0 after printing only whitespace,
   * `getFileContent` reports the file as not found.
   */
  lemma BlankOutputIsFileNotFound(stdout: string, stderr: string, parse: string -> ParseOutcome, show: real -> string)
    requires parse("") == ParseError
    requires AllWhitespace(stdout)
    ensures CloseOutcome(Some(0), stdout, stderr) == Resolved("")
    ensures FileContentResponse(Ok(CloseOutcome(Some(0), stdout, stderr).value), parse, show) == Success(FileNotFound)
  {
    assert stdout == stdout + [] + [];
    TrimUnique(stdout, [], []);
    FileNotFoundOnEmptyOutput("", parse, show);
  }
}
