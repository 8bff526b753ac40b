/**
 * The result formatter of src/formatters.ts: the JSON printed by the search tool
 * becomes a text report of numbered blocks, and the version text gets a banner.
 * The JSON text itself is not parsed here: each call receives both the raw text
 * and what `JSON.parse` made of it.
 */
module Formatters {
  import opened Results
  import opened JsText
  import opened Json

  const NoResults := "No results found."
  const Separator := "\n---\n\n"
  const VersionBanner := "Sourcegraph CLI Version Information:\n"

  /** The first line of block `index` (numbered from 1). */
  function Header(index: nat): string {
    "Result " + NatToString(index) + ":\n"
  }

  /** One `Label: value` line, present only when the field is truthy; `None` when writing the value throws. */
  function FieldLine(name: string, field: Option<Json>, show: real -> string): Option<string> {
    if !Truthy(field) then Some("")
    else
      match ToJsString(field.value, show)
      case None => None
      case Some(text) => Some(name + text + "\n")
  }

  /** The code section of a block; a truthy non-string `content` has no `trim` to call, so it throws. */
  function CodeSection(field: Option<Json>): Option<string> {
    if !Truthy(field) then Some("")
    else if field.value.Str? then Some("\nCode:\n" + Trim(field.value.s) + "\n")
    else None
  }

  /**
   * The block for one array element, or `None` when rendering it throws: reading
   * a property of `null`, writing a field that cannot be converted to text, or
   * trimming a non-string `content`.
   */
  function RenderBlock(element: Json, index: nat, show: real -> string): Option<string> {
    if element.Null? then None
    else
      var repository := FieldLine("Repository: ", Member(element, "repository"), show);
      var file := FieldLine("File: ", Member(element, "file"), show);
      var line := FieldLine("Line: ", Member(element, "lineNumber"), show);
      var code := CodeSection(Member(element, "content"));
      if repository.None? || file.None? || line.None? || code.None? then None
      else Some(Header(index) + repository.value + file.value + line.value + code.value)
  }

  /** `results.map(...)`: every element rendered, numbered from 1, or `None` as soon as one throws. */
  function RenderBlocks(items: seq<Json>, show: real -> string): (r: Option<seq<string>>)
    ensures r.Some? <==> forall k :: 0 <= k < |items| ==> RenderBlock(items[k], k + 1, show).Some?
    ensures r.Some? ==> |r.value| == |items|
    ensures r.Some? ==> forall k :: 0 <= k < |items| ==> RenderBlock(items[k], k + 1, show) == Some(r.value[k])
  {
    MapIndexed(items, (element, index) => RenderBlock(element, index + 1, show))
  }

  /**
   * `formatSearchResults`: the raw text when parsing or rendering throws,
   * "No results found." for anything but a non-empty array, and otherwise the
   * blocks joined by the separator.
   */
  function FormatSearchResults(raw: string, parsed: ParseOutcome, show: real -> string): (r: string)
    ensures parsed.ParseError? ==> r == raw
    ensures parsed.Parsed? && !(parsed.value.Array? && parsed.value.items != []) ==> r == NoResults
  {
    match parsed
    case ParseError => raw
    case Parsed(value) =>
      if !value.Array? || |value.items| == 0 then NoResults
      else
        match RenderBlocks(value.items, show)
        case None => raw
        case Some(blocks) => Join(blocks, Separator)
  }

  /** If any element fails to render, the whole report is the raw text. */
  lemma RenderFailureYieldsRaw(raw: string, items: seq<Json>, k: nat, show: real -> string)
    requires k < |items| && RenderBlock(items[k], k + 1, show).None?
    ensures FormatSearchResults(raw, Parsed(Array(items)), show) == raw
  {
  }

  /** A `null` element anywhere makes the report the raw text. */
  lemma NullElementYieldsRaw(raw: string, items: seq<Json>, k: nat, show: real -> string)
    requires k < |items| && items[k] == Null
    ensures FormatSearchResults(raw, Parsed(Array(items)), show) == raw
  {
    RenderFailureYieldsRaw(raw, items, k, show);
  }

  /** A truthy `content` that is not a string makes the report the raw text. */
  lemma NonStringContentYieldsRaw(raw: string, items: seq<Json>, k: nat, show: real -> string)
    requires k < |items| && items[k].Object? && "content" in items[k].fields
    requires Truthy(Some(items[k].fields["content"])) && !items[k].fields["content"].Str?
    ensures FormatSearchResults(raw, Parsed(Array(items)), show) == raw
  {
    RenderFailureYieldsRaw(raw, items, k, show);
  }

  /** Every rendered block starts with its numbered header line. */
  lemma BlockStartsWithHeader(element: Json, index: nat, show: real -> string)
    requires RenderBlock(element, index, show).Some?
    ensures var block := RenderBlock(element, index, show).value;
      |Header(index)| <= |block| && block[..|Header(index)|] == Header(index)
  {
    var block := RenderBlock(element, index, show).value;
    var h := Header(index);
    var rest := block[|h|..];
    assert block == h + rest;
  }

  /**
   * For a non-empty array whose elements all render, the report is the blocks in
   * input order, block `k` numbered `k + 1`, each later block preceded by the separator.
   */
  lemma BlocksInOrder(raw: string, items: seq<Json>, show: real -> string, k: nat)
    requires items != [] && k < |items|
    requires forall j :: 0 <= j < |items| ==> RenderBlock(items[j], j + 1, show).Some?
    ensures var blocks := RenderBlocks(items, show).value;
      var r := FormatSearchResults(raw, Parsed(Array(items)), show);
      && |blocks| == |items|
      && r == Join(blocks, Separator)
      && (k == 0 ==> |blocks[0]| <= |r| && r[..|blocks[0]|] == blocks[0])
      && (k > 0 ==> r == Join(blocks[..k], Separator) + Separator + Join(blocks[k..], Separator))
      && |Header(k + 1)| <= |blocks[k]| && blocks[k][..|Header(k + 1)|] == Header(k + 1)
  {
    var blocks := RenderBlocks(items, show).value;
    if k == 0 {
      JoinStartsWithFirst(blocks, Separator);
    } else {
      JoinSplitAt(blocks, Separator, k);
    }
    BlockStartsWithHeader(items[k], k + 1, show);
  }

  /**
   * The report is empty exactly when the raw text is empty and the formatter fell
   * back to it (a parse error, or an element that failed to render).
   */
  lemma FormatEmptyIff(raw: string, parsed: ParseOutcome, show: real -> string)
    ensures FormatSearchResults(raw, parsed, show) == "" <==>
      raw == "" && (parsed.ParseError? || (parsed.value.Array? && parsed.value.items != []
                                           && RenderBlocks(parsed.value.items, show).None?))
  {
    if parsed.Parsed? && parsed.value.Array? && parsed.value.items != [] {
      var items := parsed.value.items;
      var rendered := RenderBlocks(items, show);
      if rendered.Some? {
        var blocks := rendered.value;
        JoinStartsWithFirst(blocks, Separator);
        BlockStartsWithHeader(items[0], 1, show);
        assert |Header(1)| > 0;
      }
    }
  }

  /**
   * A search match as the layout reads it: each field is either absent (`None`,
   * which reads as `undefined`) or of the type the search tool prints.
   */
  datatype Match = Match(repository: Option<string>, file: Option<string>,
                         lineNumber: Option<real>, content: Option<string>)

  function StrField(field: Option<string>): Option<Json> {
    if field.Some? then Some(Str(field.value)) else None
  }

  function NumberField(field: Option<real>): Option<Json> {
    if field.Some? then Some(Number(field.value)) else None
  }

  /** `fields` with `key` set to the value when there is one, and left without it otherwise. */
  function WithField(fields: map<string, Json>, key: string, value: Option<Json>): map<string, Json> {
    if value.Some? then fields[key := value.value] else fields
  }

  /** The JSON object the search tool prints for a match: only the present fields become keys. */
  function MatchJson(m: Match): Json {
    var fields := WithField(map[], "repository", StrField(m.repository));
    var fields := WithField(fields, "file", StrField(m.file));
    var fields := WithField(fields, "lineNumber", NumberField(m.lineNumber));
    Object(WithField(fields, "content", StrField(m.content)))
  }

  /**
   * The intended block for a match: the header, then the repository, file, line
   * and code lines in that order, each only when its field is present and
   * non-empty (non-zero for the line number), with the code trimmed.
   */
  function ExpectedBlock(m: Match, index: nat, show: real -> string): string {
    Header(index)
    + (if m.repository.Some? && m.repository.value != "" then "Repository: " + m.repository.value + "\n" else "")
    + (if m.file.Some? && m.file.value != "" then "File: " + m.file.value + "\n" else "")
    + (if m.lineNumber.Some? && m.lineNumber.value != 0.0 then "Line: " + show(m.lineNumber.value) + "\n" else "")
    + (if m.content.Some? && m.content.value != "" then "\nCode:\n" + Trim(m.content.value) + "\n" else "")
  }

  /** Reading a field of a match's object gives the field when present and `undefined` when absent. */
  lemma MatchMembers(m: Match)
    ensures Member(MatchJson(m), "repository") == StrField(m.repository)
    ensures Member(MatchJson(m), "file") == StrField(m.file)
    ensures Member(MatchJson(m), "lineNumber") == NumberField(m.lineNumber)
    ensures Member(MatchJson(m), "content") == StrField(m.content)
  {
    assert "repository"[0] == 'r' && "file"[0] == 'f' && "lineNumber"[0] == 'l' && "content"[0] == 'c';
  }

  /** A string field writes its line exactly when it is present and non-empty. */
  lemma StringFieldLine(name: string, field: Option<string>, show: real -> string)
    ensures FieldLine(name, StrField(field), show)
         == Some(if field.Some? && field.value != "" then name + field.value + "\n" else "")
  {
  }

  /** A number field writes its line exactly when it is present and non-zero. */
  lemma NumberFieldLine(name: string, field: Option<real>, show: real -> string)
    ensures FieldLine(name, NumberField(field), show)
         == Some(if field.Some? && field.value != 0.0 then name + show(field.value) + "\n" else "")
  {
  }

  /**
   * A field line is empty exactly when the field is falsy, fails exactly when a
   * truthy field cannot be written, and otherwise is the label, the text and a newline.
   */
  lemma FieldLineCases(name: string, field: Option<Json>, show: real -> string)
    ensures FieldLine(name, field, show) == Some("") <==> !Truthy(field)
    ensures FieldLine(name, field, show).None? <==> Truthy(field) && ToJsString(field.value, show).None?
    ensures Truthy(field) && ToJsString(field.value, show).Some? ==>
      FieldLine(name, field, show) == Some(name + ToJsString(field.value, show).value + "\n")
  {
    if Truthy(field) && ToJsString(field.value, show).Some? {
      var line := name + ToJsString(field.value, show).value + "\n";
      assert line[|line| - 1] == '\n';
    }
  }

  /**
   * The code section is empty exactly when `content` is falsy, fails exactly when
   * a truthy `content` is not a string, and otherwise holds the trimmed code.
   */
  lemma CodeSectionCases(field: Option<Json>)
    ensures CodeSection(field) == Some("") <==> !Truthy(field)
    ensures CodeSection(field).None? <==> Truthy(field) && !field.value.Str?
    ensures Truthy(field) && field.value.Str? ==>
      var section := CodeSection(field).value;
      && |section| == |"\nCode:\n"| + |Trim(field.value.s)| + 1
      && section[..|"\nCode:\n"|] == "\nCode:\n"
      && section[|"\nCode:\n"|..|section| - 1] == Trim(field.value.s)
      && section[|section| - 1] == '\n'
  {
    if Truthy(field) && field.value.Str? {
      var code := Trim(field.value.s);
      var section := "\nCode:\n" + code + "\n";
      assert section[..|"\nCode:\n"|] == "\nCode:\n";
      assert section[|"\nCode:\n"|..|section| - 1] == code;
    }
  }

  /** The block of an object whose four fields each render to a line. */
  lemma ObjectBlock(e: Json, index: nat, show: real -> string, repository: string, file: string, line: string, code: string)
    requires e.Object?
    requires FieldLine("Repository: ", Member(e, "repository"), show) == Some(repository)
    requires FieldLine("File: ", Member(e, "file"), show) == Some(file)
    requires FieldLine("Line: ", Member(e, "lineNumber"), show) == Some(line)
    requires CodeSection(Member(e, "content")) == Some(code)
    ensures RenderBlock(e, index, show) == Some(Header(index) + repository + file + line + code)
  {
  }

  /** A match renders to its intended block, whichever of its fields are absent. */
  lemma MatchBlock(m: Match, index: nat, show: real -> string)
    ensures RenderBlock(MatchJson(m), index, show) == Some(ExpectedBlock(m, index, show))
  {
    MatchMembers(m);
    StringFieldLine("Repository: ", m.repository, show);
    StringFieldLine("File: ", m.file, show);
    NumberFieldLine("Line: ", m.lineNumber, show);
    var code := if m.content.Some? && m.content.value != "" then "\nCode:\n" + Trim(m.content.value) + "\n" else "";
    assert CodeSection(StrField(m.content)) == Some(code);
    ObjectBlock(MatchJson(m), index, show,
      if m.repository.Some? && m.repository.value != "" then "Repository: " + m.repository.value + "\n" else "",
      if m.file.Some? && m.file.value != "" then "File: " + m.file.value + "\n" else "",
      if m.lineNumber.Some? && m.lineNumber.value != 0.0 then "Line: " + show(m.lineNumber.value) + "\n" else "",
      code);
  }

  /** An object without any of the four keys renders to its header alone. */
  lemma EmptyObjectBlock(index: nat, show: real -> string)
    ensures RenderBlock(Object(map[]), index, show) == Some(Header(index))
  {
    var none := Match(None, None, None, None);
    MatchBlock(none, index, show);
    assert MatchJson(none) == Object(map[]);
    assert ExpectedBlock(none, index, show) == Header(index) + "" + "" + "" + "";
    assert Header(index) + "" + "" + "" + "" == Header(index);
  }

  /** The JSON array the search tool prints for a sequence of matches. */
  function MatchesJson(matches: seq<Match>): (items: seq<Json>)
    ensures |items| == |matches|
    ensures forall k :: 0 <= k < |matches| ==> items[k] == MatchJson(matches[k])
  {
    seq(|matches|, k requires 0 <= k < |matches| => MatchJson(matches[k]))
  }

  /** The intended blocks for a sequence of matches, numbered from 1. */
  function ExpectedBlocks(matches: seq<Match>, show: real -> string): (blocks: seq<string>)
    ensures |blocks| == |matches|
    ensures forall k :: 0 <= k < |matches| ==> blocks[k] == ExpectedBlock(matches[k], k + 1, show)
  {
    seq(|matches|, k requires 0 <= k < |matches| => ExpectedBlock(matches[k], k + 1, show))
  }

  /**
   * For N >= 1 well-formed matches the report is their intended blocks, numbered
   * 1..N in input order and joined by the separator.
   */
  lemma MatchesFormat(raw: string, matches: seq<Match>, show: real -> string)
    requires matches != []
    ensures FormatSearchResults(raw, Parsed(Array(MatchesJson(matches))), show)
         == Join(ExpectedBlocks(matches, show), Separator)
  {
    MatchesRender(matches, show);
  }

  /** Every match renders, and the rendered list is the list of intended blocks. */
  lemma MatchesRender(matches: seq<Match>, show: real -> string)
    ensures RenderBlocks(MatchesJson(matches), show) == Some(ExpectedBlocks(matches, show))
  {
    var items := MatchesJson(matches);
    var expected := ExpectedBlocks(matches, show);
    forall k | 0 <= k < |items|
      ensures RenderBlock(items[k], k + 1, show) == Some(expected[k])
    {
      MatchBlock(matches[k], k + 1, show);
    }
    var rendered := RenderBlocks(items, show);
    assert rendered.Some?;
    assert rendered.value == expected;
  }

  /** `formatVersionInfo`: the banner, then the version text unchanged. */
  function FormatVersionInfo(versionInfo: string): (r: string)
    ensures |r| == |VersionBanner| + |versionInfo|
    ensures r[..|VersionBanner|] == VersionBanner && r[|VersionBanner|..] == versionInfo
  {
    VersionBanner + versionInfo
  }
}
