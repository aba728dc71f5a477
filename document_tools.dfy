/**
 * Text utilities of the document tools: the prompt chosen for a document
 * operation, Markdown table and summary-card rendering, the quality check of
 * a model's output, and the splitting of a long text into titled sections.
 */
module DocumentTools {
  import opened Wrappers
  import opened Strings
  import opened Doubles

  // ---------------------------------------------------------------------
  // Operation prompts

  /** At most this many characters of a document go into a prompt. */
  const PromptContentLimit: nat := 8000

  /** A prompt template: the text before the document and the text between the document and the instruction. */
  datatype Template = Template(intro: string, requirements: string)

  predicate KnownOperation(operation: string) {
    operation == "summarize" || operation == "generate" || operation == "convert"
    || operation == "extract_table" || operation == "extract_key_points" || operation == "analyze"
  }

  /** The generic template's text around the operation name, and its instruction heading. */
  const GenericOpening: string := "\n请对以下文档执行 '"
  const GenericClosing: string := "' 操作：\n\n文档内容：\n"
  const GenericRequirements: string := "\n\n用户指示：\n"

  /** The templates of the six known operations. */
  const SummarizeTemplate: Template :=
    Template("\n请对以下文档进行总结：\n\n文档内容：\n",
      "\n\n要求：\n1. 提取3-5个核心要点\n2. 生成简洁准确的摘要（300-500字）\n3. 保持客观中立\n4. 使用清晰的标题和列表\n5. 保留关键数据和事实\n")

  const GenerateTemplate: Template :=
    Template("\n请基于以下文档内容生成：\n\n文档内容：\n",
      "\n\n生成要求：\n1. 请根据上下文和用户需求生成合适的文档\n2. 可能是：报告、邮件、提案、说明文档等\n3. 内容应专业、结构清晰、逻辑严谨\n4. 长度适中，符合商务标准\n")

  const ConvertTemplate: Template :=
    Template("\n请将以下文档转换为更结构化的格式：\n\n文档内容：\n",
      "\n\n转换要求：\n1. 转换为更容易阅读的格式（如Markdown）\n2. 保留所有重要信息和结构\n3. 使用标题、列表、表格等结构化元素\n4. 如有表格数据，用Markdown表格格式\n5. 如有列表，使用有序/无序列表\n")

  const ExtractTableTemplate: Template :=
    Template("\n请从以下文档中提取表格和数据：\n\n文档内容：\n",
      "\n\n提取要求：\n1. 识别所有表格和数据\n2. 用Markdown表格格式展示\n3. 如有多个表格，分别标记\n4. 提取表格标题和说明\n5. 保留数据的准确性\n")

  const KeyPointsTemplate: Template :=
    Template("\n请从以下文档中提取关键信息点：\n\n文档内容：\n",
      "\n\n提取要求：\n1. 找出所有重要事实和数据\n2. 分类整理（如：时间、地点、人物、数字）\n3. 使用清晰的列表格式\n4. 注明信息来源位置（如第几段）\n5. 提取潜在的行动项或待办事项\n")

  const AnalyzeTemplate: Template :=
    Template("\n请对以下文档进行深入分析：\n\n文档内容：\n",
      "\n\n分析要求：\n1. 分析文档的主题和目的\n2. 评估作者的观点和立场\n3. 识别论点和支持证据\n4. 指出潜在的逻辑问题或缺失信息\n5. 提供你的专业见解\n")

  /** The template of `operation`: one of six fixed ones, else a generic one naming the operation. */
  function TemplateFor(operation: string): (t: Template)
    ensures !KnownOperation(operation) ==> t == Template(GenericOpening + operation + GenericClosing, GenericRequirements)
  {
    if operation == "summarize" then SummarizeTemplate
    else if operation == "generate" then GenerateTemplate
    else if operation == "convert" then ConvertTemplate
    else if operation == "extract_table" then ExtractTableTemplate
    else if operation == "extract_key_points" then KeyPointsTemplate
    else if operation == "analyze" then AnalyzeTemplate
    else Template(GenericOpening + operation + GenericClosing, GenericRequirements)
  }

  /** A template filled with the first 8000 characters of the document and the instruction. */
  function PromptFrom(t: Template, content: string, instruction: string): string {
    t.intro + Take(content, PromptContentLimit) + t.requirements + instruction + "\n"
  }

  /** `get_operation_prompt(operation, content, instruction)` */
  function OperationPrompt(operation: string, content: string, instruction: string): string {
    PromptFrom(TemplateFor(operation), content, instruction)
  }

  /**
   * Whatever the template, the prompt opens with it and the first 8000
   * characters of the document, ends with the instruction and a newline,
   * and does not depend on the document beyond those 8000 characters.
   */
  lemma PromptShape(t: Template, content: string, other: string, instruction: string)
    ensures var r := PromptFrom(t, content, instruction);
            StartsWith(r, t.intro + Take(content, PromptContentLimit))
            && EndsWith(r, instruction + "\n")
            && (|content| <= PromptContentLimit ==> StartsWith(r, t.intro + content))
    ensures Take(content, PromptContentLimit) == Take(other, PromptContentLimit) ==>
              PromptFrom(t, content, instruction) == PromptFrom(t, other, instruction)
  {
    var head := t.intro + Take(content, PromptContentLimit);
    var r := PromptFrom(t, content, instruction);
    assert r == head + (t.requirements + instruction + "\n");
    assert r[..|head|] == head;
    assert r == (head + t.requirements) + (instruction + "\n");
  }

  // ---------------------------------------------------------------------
  // Markdown table

  /** A row cut to `n` cells, or padded with empty cells up to `n`. */
  function Fit(row: seq<string>, n: nat): (r: seq<string>)
    ensures |r| == n
    ensures forall i :: 0 <= i < n ==> r[i] == (if i < |row| then row[i] else "")
  {
    if |row| >= n then row[..n] else row + seq(n - |row|, _ => "")
  }

  /** One `---` per column. */
  function Dashes(n: nat): (r: seq<string>)
    ensures |r| == n && forall i :: 0 <= i < n ==> r[i] == "---"
  {
    seq(n, _ => "---")
  }

  /** The lines of one data row per row, in order. */
  function RowLines(rows: seq<seq<string>>, n: nat): (r: seq<string>)
    ensures |r| == |rows|
    ensures forall k :: 0 <= k < |rows| ==> r[k] == Join(" | ", Fit(rows[k], n))
  {
    if rows == [] then [] else RowLines(rows[..|rows| - 1], n) + [Join(" | ", Fit(rows[|rows| - 1], n))]
  }

  /** Header line, separator line, then the data rows. */
  function TableLines(headers: seq<string>, rows: seq<seq<string>>): seq<string> {
    [Join(" | ", headers), Join(" | ", Dashes(|headers|))] + RowLines(rows, |headers|)
  }

  /** `generate_markdown_table(headers, rows)` */
  function MarkdownTable(headers: seq<string>, rows: seq<seq<string>>): string {
    if headers == [] || rows == [] then "" else Join("\n", TableLines(headers, rows))
  }

  /** A join of pieces free of `c` with a separator free of `c` is free of `c`. */
  lemma {:induction false} JoinFree(sep: string, parts: seq<string>, c: char)
    requires c !in sep && forall k :: 0 <= k < |parts| ==> c !in parts[k]
    ensures c !in Join(sep, parts)
    decreases |parts|
  {
    if |parts| > 1 {
      JoinFree(sep, parts[1..], c);
    }
  }

  predicate NoNewline(cells: seq<string>) {
    forall k :: 0 <= k < |cells| ==> '\n' !in cells[k]
  }

  /** When no cell holds a line break, no line of the table does. */
  lemma TableLinesNoNewline(headers: seq<string>, rows: seq<seq<string>>)
    requires NoNewline(headers) && forall k :: 0 <= k < |rows| ==> NoNewline(rows[k])
    ensures NoNewline(TableLines(headers, rows))
  {
    var n := |headers|;
    var lines := TableLines(headers, rows);
    JoinFree(" | ", headers, '\n');
    JoinFree(" | ", Dashes(n), '\n');
    forall k | 2 <= k < |lines|
      ensures '\n' !in lines[k]
    {
      assert lines[k] == Join(" | ", Fit(rows[k - 2], n));
      JoinFree(" | ", Fit(rows[k - 2], n), '\n');
    }
  }

  /**
   * When no cell holds a line break, the table reads back, line by line, as
   * the header, one `---` per header, and each row cut or padded to the
   * number of headers; empty headers or rows give the empty text.
   */
  lemma MarkdownTableLines(headers: seq<string>, rows: seq<seq<string>>)
    requires NoNewline(headers) && forall k :: 0 <= k < |rows| ==> NoNewline(rows[k])
    ensures headers == [] || rows == [] ==> MarkdownTable(headers, rows) == ""
    ensures headers != [] && rows != [] ==>
              var lines := Split(MarkdownTable(headers, rows), '\n');
              |lines| == |rows| + 2
              && lines[0] == Join(" | ", headers)
              && lines[1] == Join(" | ", Dashes(|headers|))
              && forall k :: 0 <= k < |rows| ==> lines[k + 2] == Join(" | ", Fit(rows[k], |headers|))
  {
    if headers != [] && rows != [] {
      TableLinesNoNewline(headers, rows);
      SplitJoin(TableLines(headers, rows), '\n');
    }
  }

  /** The table loop: a header line, a separator, then each row cut or padded to the header count. */
  method GenerateMarkdownTable(headers: seq<string>, rows: seq<seq<string>>) returns (r: string)
    ensures r == MarkdownTable(headers, rows)
  {
    if headers == [] || rows == [] {
      return "";
    }
    var n := |headers|;
    var table := [Join(" | ", headers), Join(" | ", seq(n, _ => "---"))];
    for k := 0 to |rows|
      invariant table == TableLines(headers, rows[..k])
    {
      var row := rows[k];
      if |row| > n {
        row := row[..n];
      }
      row := row + seq(n - |row|, _ => "");
      assert row == Fit(rows[k], n);
      assert rows[..k + 1][..k] == rows[..k];
      table := table + [Join(" | ", row)];
    }
    assert rows[..|rows|] == rows;
    r := Join("\n", table);
  }

  // ---------------------------------------------------------------------
  // Summary card

  /** The card's lines: heading, blank line, table head, one row per entry, and a final empty line. */
  function CardLines(title: string, data: seq<(string, string)>, emoji: string): (r: seq<string>)
    ensures |r| == |data| + 5
  {
    ["### " + emoji + " " + title, "", "| 项目 | 内容 |", "|------|------|"]
    + seq(|data|, k requires 0 <= k < |data| => "| " + data[k].0 + " | " + data[k].1 + " |")
    + [""]
  }

  /** `create_summary_card(title, data, emoji)`, the dictionary given as its items in order. */
  function SummaryCard(title: string, data: seq<(string, string)>, emoji: string): string {
    Join("\n", CardLines(title, data, emoji))
  }

  /**
   * The card always ends with a line break, and when no field holds a line
   * break it reads back as the heading, a blank line, the two table-head
   * lines, one `| key | value |` line per entry in order, and an empty last
   * line.
   */
  lemma SummaryCardLines(title: string, data: seq<(string, string)>, emoji: string)
    ensures EndsWith(SummaryCard(title, data, emoji), "\n")
    ensures '\n' !in title && '\n' !in emoji && (forall k :: 0 <= k < |data| ==> '\n' !in data[k].0 && '\n' !in data[k].1) ==>
              var lines := Split(SummaryCard(title, data, emoji), '\n');
              |lines| == |data| + 5 && lines[0] == "### " + emoji + " " + title
              && lines[1] == "" && lines[|data| + 4] == ""
              && forall k :: 0 <= k < |data| ==> lines[k + 4] == "| " + data[k].0 + " | " + data[k].1 + " |"
  {
    var lines := CardLines(title, data, emoji);
    var front := lines[..|lines| - 1];
    assert lines == front + [""];
    JoinAppend("\n", front, "");
    if '\n' !in title && '\n' !in emoji && (forall k :: 0 <= k < |data| ==> '\n' !in data[k].0 && '\n' !in data[k].1) {
      forall k | 0 <= k < |lines|
        ensures '\n' !in lines[k]
      {
        if 4 <= k < |data| + 4 {
          assert lines[k] == "| " + data[k - 4].0 + " | " + data[k - 4].1 + " |";
        }
      }
      SplitJoin(lines, '\n');
    }
  }

  // ---------------------------------------------------------------------
  // Output validation

  const LowConfidenceMarker: string := "---CONFIDENCE_LOW---"

  /** The model said it could not or would not answer. */
  predicate Uncertain(output: string) {
    Contains(output, "I don't have access") || Contains(output, "I'm not sure")
  }

  /** Distinct words of a word list. */
  function UniqueWords(words: seq<string>): set<string> {
    set w | w in words
  }

  /** More than 100 words with fewer than 30% of them distinct. */
  predicate Repetitive(output: string) {
    var words := SplitWords(output);
    |words| > 100 && 10 * |UniqueWords(words)| < 3 * |words|
  }

  /** `(passed, reason)` */
  datatype Verdict = Verdict(ok: bool, reason: string)

  /**
   * `validate_output(output, min_length, max_length)`: the first failing
   * check gives the reason; an output passing all of them is accepted.
   */
  function ValidateOutput(output: string, minLength: int, maxLength: int): (r: Verdict)
    ensures r.ok <==> minLength <= |output| <= maxLength && !Contains(output, LowConfidenceMarker)
                      && !Uncertain(output) && !Repetitive(output)
    ensures r.ok ==> r.reason == "通过验证"
    ensures |output| < minLength ==> r.reason == "内容太短（" + NatToString(|output|) + " 字符），可能未正确处理"
    ensures minLength <= |output| && maxLength < |output| ==> r.reason == "内容过长（" + NatToString(|output|) + " 字符），可能需要截断"
    ensures minLength <= |output| <= maxLength && Contains(output, LowConfidenceMarker) ==> r.reason == "置信度低，需要人工审核"
    ensures minLength <= |output| <= maxLength && !Contains(output, LowConfidenceMarker) && Uncertain(output)
            ==> r.reason == "模型不确定如何处理，需要澄清"
    ensures minLength <= |output| <= maxLength && !Contains(output, LowConfidenceMarker) && !Uncertain(output) && Repetitive(output)
            ==> r.reason == "检测到重复内容，质量可能不高"
  {
    if |output| < minLength then Verdict(false, "内容太短（" + NatToString(|output|) + " 字符），可能未正确处理")
    else if |output| > maxLength then Verdict(false, "内容过长（" + NatToString(|output|) + " 字符），可能需要截断")
    else if Contains(output, LowConfidenceMarker) then Verdict(false, "置信度低，需要人工审核")
    else if Uncertain(output) then Verdict(false, "模型不确定如何处理，需要澄清")
    else if Repetitive(output) then Verdict(false, "检测到重复内容，质量可能不高")
    else Verdict(true, "通过验证")
  }

  /** Widening the length bounds never turns an accepted output into a rejected one. */
  lemma ValidateOutputMonotone(output: string, minLength: int, maxLength: int, minLength': int, maxLength': int)
    requires minLength' <= minLength && maxLength <= maxLength'
    ensures ValidateOutput(output, minLength, maxLength).ok ==> ValidateOutput(output, minLength', maxLength').ok
  {
  }

  // ---------------------------------------------------------------------
  // Section splitting

  datatype Section = Section(title: string, content: string)

  /** The characters a heading pattern repeats: `#`, ASCII digits, the Chinese numerals one to ten. */
  datatype CharClass = Hashes | Digits | Numerals

  predicate InClass(c: char, cls: CharClass) {
    match cls
    case Hashes => c == '#'
    case Digits => '0' <= c <= '9'
    case Numerals => c == '一' || c == '二' || c == '三' || c == '四' || c == '五'
                     || c == '六' || c == '七' || c == '八' || c == '九' || c == '十'
  }

  /** The end of the run of characters of class `cls` that starts at `i`. */
  function RunEnd(s: string, i: nat, cls: CharClass): (j: nat)
    requires i <= |s|
    ensures i <= j <= |s|
    decreases |s| - i
  {
    if i < |s| && InClass(s[i], cls) then RunEnd(s, i + 1, cls) else i
  }

  /** From `j` on: whitespace, then at least one more character. */
  predicate SpaceThenText(s: string, j: nat) {
    j + 1 < |s| && IsSpace(s[j])
  }

  /** `^第<run>章\s+.+$` for a run of characters of class `cls`. */
  predicate Chapter(s: string, cls: CharClass) {
    |s| >= 1 && s[0] == '第'
    && var j := RunEnd(s, 1, cls);
    j >= 2 && j < |s| && s[j] == '章' && SpaceThenText(s, j + 1)
  }

  /**
   * The five heading patterns, matched against a stripped line (which has no
   * whitespace at either end and no line break): `text:`, `# title`,
   * `1. title`, `第一章 title` and `第1章 title`.
   */
  predicate IsHeading(line: string) {
    (|line| >= 2 && line[|line| - 1] == ':')
    || (var j := RunEnd(line, 0, Hashes); j >= 1 && SpaceThenText(line, j))
    || (var j := RunEnd(line, 0, Digits); j >= 1 && j < |line| && line[j] == '.' && SpaceThenText(line, j + 1))
    || Chapter(line, Numerals)
    || Chapter(line, Digits)
  }

  /** Every line stripped of surrounding whitespace, in order. */
  function StripAll(lines: seq<string>): (r: seq<string>)
    ensures |r| == |lines|
  {
    if lines == [] then [] else StripAll(lines[..|lines| - 1]) + [Strip(lines[|lines| - 1])]
  }

  /** The `i`-th stripped line is the `i`-th line, stripped. */
  lemma {:induction false} StripAllIndex(lines: seq<string>, i: nat)
    requires i < |lines|
    ensures StripAll(lines)[i] == Strip(lines[i])
    decreases |lines|
  {
    if i < |lines| - 1 {
      StripAllIndex(lines[..|lines| - 1], i);
    }
  }

  /** No line of `lines` is a heading. */
  predicate NoHeading(lines: seq<string>) {
    forall j :: 0 <= j < |lines| ==> !IsHeading(lines[j])
  }

  /**
   * Sections as the splitting loop closes them: the first is the "引言"
   * section, every later title passes the heading test, and every text
   * reaches `minLength`.
   */
  predicate Closed(sections: seq<Section>, minLength: int, isHeading: string -> bool) {
    (sections != [] ==> sections[0].title == "引言")
    && (forall k :: 1 <= k < |sections| ==> isHeading(sections[k].title))
    && (forall k :: 0 <= k < |sections| ==> |sections[k].content| >= minLength)
  }

  /** A section before its lines are joined. */
  datatype Part = Part(title: string, lines: seq<string>)

  /** The state of the splitting loop: the closed sections, the lines of the open one, and its title. */
  datatype Progress = Progress(parts: seq<Part>, current: seq<string>, title: string)

  /** The title every text opens with. */
  const IntroTitle: string := "引言"

  /** A section, its lines joined by line breaks. */
  function Render(parts: seq<Part>): (r: seq<Section>)
    ensures |r| == |parts|
    ensures forall k :: 0 <= k < |parts| ==> r[k] == Section(parts[k].title, Join("\n", parts[k].lines))
  {
    if parts == [] then []
    else Render(parts[..|parts| - 1]) + [Section(parts[|parts| - 1].title, Join("\n", parts[|parts| - 1].lines))]
  }

  /** Whether `line` closes the open section: a heading under a section whose text reaches `minLength`. */
  predicate Closes(p: Progress, line: string, minLength: int, isHeading: string -> bool) {
    isHeading(line) && p.current != [] && |Join("\n", p.current)| >= minLength
  }

  /**
   * One stripped line: a heading that closes the open section becomes the
   * title of a new, empty one; any other line, a heading under an empty or
   * short section included, joins the open section.
   */
  function Step(p: Progress, line: string, minLength: int, isHeading: string -> bool): Progress {
    if Closes(p, line, minLength, isHeading) then Progress(p.parts + [Part(p.title, p.current)], [], line)
    else Progress(p.parts, p.current + [line], p.title)
  }

  /** The loop state after the first `k` stripped lines. */
  function Run(stripped: seq<string>, k: nat, minLength: int, isHeading: string -> bool): Progress
    requires k <= |stripped|
  {
    if k == 0 then Progress([], [], IntroTitle)
    else Step(Run(stripped, k - 1, minLength, isHeading), stripped[k - 1], minLength, isHeading)
  }

  /** After line `i` (counted from 0) there are ten sections and `i` is past seven tenths of the line count. */
  predicate Merges(stripped: seq<string>, i: nat, minLength: int, isHeading: string -> bool) {
    i < |stripped| && |Run(stripped, i + 1, minLength, isHeading).parts| >= 10 && PastSeventyPercent(i, |stripped|)
  }

  /** The first line from `from` on after which the rest of the text is merged, or the line count. */
  function MergeAt(stripped: seq<string>, from: nat, minLength: int, isHeading: string -> bool): (m: nat)
    requires from <= |stripped|
    ensures from <= m <= |stripped|
    ensures m < |stripped| ==> Merges(stripped, m, minLength, isHeading)
    ensures forall j :: from <= j < m ==> !Merges(stripped, j, minLength, isHeading)
    decreases |stripped| - from
  {
    if from == |stripped| then from
    else if Merges(stripped, from, minLength, isHeading) then from
    else MergeAt(stripped, from + 1, minLength, isHeading)
  }

  /**
   * The loop state when the loop ends: after every line, or after the line
   * where it merges, with the remaining lines, unstripped, added to the
   * open section.
   */
  function Final(lines: seq<string>, stripped: seq<string>, minLength: int, isHeading: string -> bool): Progress
    requires |stripped| == |lines|
  {
    var m := MergeAt(stripped, 0, minLength, isHeading);
    if m < |stripped| then
      var p := Run(stripped, m + 1, minLength, isHeading);
      Progress(p.parts, p.current + lines[m + 1..], p.title)
    else Run(stripped, |stripped|, minLength, isHeading)
  }

  /** Whether the open section is kept at the end: it has lines, and reaches `minLength` or is the only one. */
  predicate KeepsLast(p: Progress, minLength: int) {
    p.current != [] && (|Join("\n", p.current)| >= minLength || p.parts == [])
  }

  /** The sections once the open one is kept or dropped. */
  function Close(p: Progress, minLength: int): seq<Part> {
    if KeepsLast(p, minLength) then p.parts + [Part(p.title, p.current)] else p.parts
  }

  /**
   * The lines a run of parts was made of: the first part's lines, then each
   * later part's title (its heading line) followed by its lines.
   */
  function FlatParts(parts: seq<Part>): seq<string> {
    if parts == [] then []
    else if |parts| == 1 then parts[0].lines
    else FlatParts(parts[..|parts| - 1]) + [parts[|parts| - 1].title] + parts[|parts| - 1].lines
  }

  /** The lines a loop state was made of, the open section included. */
  function Flat(p: Progress): seq<string> {
    FlatParts(p.parts + [Part(p.title, p.current)])
  }

  /** The lines dropped at the end: the heading and lines of a short or empty last section. */
  function Dropped(p: Progress, minLength: int): seq<string> {
    if KeepsLast(p, minLength) || p.parts == [] then [] else [p.title] + p.current
  }

  /** A loop state holds exactly the lines read so far, in order. */
  lemma {:induction false} RunFlat(stripped: seq<string>, k: nat, minLength: int, isHeading: string -> bool)
    requires k <= |stripped|
    ensures Flat(Run(stripped, k, minLength, isHeading)) == stripped[..k]
    ensures Run(stripped, k, minLength, isHeading).parts == [] ==> Run(stripped, k, minLength, isHeading).title == IntroTitle
  {
    if k > 0 {
      RunFlat(stripped, k - 1, minLength, isHeading);
      var p := Run(stripped, k - 1, minLength, isHeading);
      var line := stripped[k - 1];
      assert stripped[..k] == stripped[..k - 1] + [line];
      if Closes(p, line, minLength, isHeading) {
        var ps := p.parts + [Part(p.title, p.current)];
        assert (ps + [Part(line, [])])[..|ps|] == ps;
      } else {
        var ps := p.parts + [Part(p.title, p.current + [line])];
        assert ps[..|ps| - 1] == p.parts;
        assert (p.parts + [Part(p.title, p.current)])[..|ps| - 1] == p.parts;
      }
    }
  }

  /** Adding lines to the open section adds them at the end of the state's lines. */
  lemma FlatExtend(p: Progress, tail: seq<string>)
    ensures Flat(Progress(p.parts, p.current + tail, p.title)) == Flat(p) + tail
  {
    var ps := p.parts + [Part(p.title, p.current + tail)];
    assert ps[..|ps| - 1] == p.parts;
    assert (p.parts + [Part(p.title, p.current)])[..|ps| - 1] == p.parts;
  }

  /**
   * Closing keeps every line of the state but the dropped ones, which can
   * only be the heading and lines of a short or empty last section.
   */
  lemma CloseFlat(p: Progress, minLength: int)
    ensures FlatParts(Close(p, minLength)) + Dropped(p, minLength) == Flat(p)
    ensures Dropped(p, minLength) != [] ==>
              p.parts != [] && Dropped(p, minLength)[0] == p.title && (p.current == [] || |Join("\n", p.current)| < minLength)
  {
    var ps := p.parts + [Part(p.title, p.current)];
    assert ps[..|ps| - 1] == p.parts;
    if !KeepsLast(p, minLength) && p.parts == [] {
      assert p.current == [];
    }
  }

  /**
   * The sections hold the text's lines in order: the stripped lines up to the
   * one where the loop merges, then the remaining lines unstripped, with each
   * later section's heading line as its title; only the heading and lines of
   * a short or empty last section go missing.
   */
  lemma SectionsKeepLines(lines: seq<string>, stripped: seq<string>, minLength: int, isHeading: string -> bool)
    requires |stripped| == |lines|
    ensures FlatParts(Close(Final(lines, stripped, minLength, isHeading), minLength))
            + Dropped(Final(lines, stripped, minLength, isHeading), minLength)
            == if MergeAt(stripped, 0, minLength, isHeading) < |lines|
               then stripped[..MergeAt(stripped, 0, minLength, isHeading) + 1] + lines[MergeAt(stripped, 0, minLength, isHeading) + 1..]
               else stripped
  {
    var m := MergeAt(stripped, 0, minLength, isHeading);
    var f := Final(lines, stripped, minLength, isHeading);
    CloseFlat(f, minLength);
    if m < |lines| {
      RunFlat(stripped, m + 1, minLength, isHeading);
      FlatExtend(Run(stripped, m + 1, minLength, isHeading), lines[m + 1..]);
    } else {
      RunFlat(stripped, |stripped|, minLength, isHeading);
      assert stripped[..|stripped|] == stripped;
    }
  }

  lemma RenderSnoc(parts: seq<Part>, part: Part)
    ensures Render(parts + [part]) == Render(parts) + [Section(part.title, Join("\n", part.lines))]
  {
    assert (parts + [part])[..|parts|] == parts;
  }

  /** A section long enough, titled "引言" when first and a heading otherwise, keeps closed sections closed. */
  lemma ClosedSnoc(sections: seq<Section>, s: Section, minLength: int, isHeading: string -> bool)
    requires Closed(sections, minLength, isHeading) && |s.content| >= minLength
    requires if sections == [] then s.title == IntroTitle else isHeading(s.title)
    ensures Closed(sections + [s], minLength, isHeading)
  {
  }

  /** Every loop state: the closed sections keep their shape, and the open title is "引言" or a heading. */
  lemma {:induction false} RunShape(stripped: seq<string>, k: nat, minLength: int, isHeading: string -> bool)
    requires k <= |stripped|
    ensures Closed(Render(Run(stripped, k, minLength, isHeading).parts), minLength, isHeading)
    ensures if Run(stripped, k, minLength, isHeading).parts == [] then Run(stripped, k, minLength, isHeading).title == IntroTitle
            else isHeading(Run(stripped, k, minLength, isHeading).title)
    ensures k > 0 ==> Run(stripped, k, minLength, isHeading).parts != [] || Run(stripped, k, minLength, isHeading).current != []
  {
    if k > 0 {
      RunShape(stripped, k - 1, minLength, isHeading);
      var p := Run(stripped, k - 1, minLength, isHeading);
      if Closes(p, stripped[k - 1], minLength, isHeading) {
        RenderSnoc(p.parts, Part(p.title, p.current));
        ClosedSnoc(Render(p.parts), Section(p.title, Join("\n", p.current)), minLength, isHeading);
      }
    }
  }

  /** Before the first heading the state is the "引言" section of every line read. */
  lemma {:induction false} RunNoHeading(stripped: seq<string>, k: nat, minLength: int, isHeading: string -> bool)
    requires k <= |stripped|
    requires forall j :: 0 <= j < k ==> !isHeading(stripped[j])
    ensures Run(stripped, k, minLength, isHeading) == Progress([], stripped[..k], IntroTitle)
  {
    if k > 0 {
      RunNoHeading(stripped, k - 1, minLength, isHeading);
      assert stripped[..k] == stripped[..k - 1] + [stripped[k - 1]];
    }
  }

  /**
   * What the sections of a text are: never empty, the first titled "引言",
   * every later title a heading line, and every text reaching `minLength`
   * unless there is only one section.
   */
  predicate Shaped(sections: seq<Section>, minLength: int, isHeading: string -> bool) {
    |sections| >= 1 && sections[0].title == IntroTitle
    && (forall k :: 1 <= k < |sections| ==> isHeading(sections[k].title))
    && (forall k :: 0 <= k < |sections| ==> |sections[k].content| >= minLength || |sections| == 1)
  }

  /** The final state has the shape of every loop state, and holds at least one line. */
  lemma FinalShape(lines: seq<string>, stripped: seq<string>, minLength: int, isHeading: string -> bool)
    requires |lines| >= 1 && |stripped| == |lines|
    ensures Closed(Render(Final(lines, stripped, minLength, isHeading).parts), minLength, isHeading)
    ensures if Final(lines, stripped, minLength, isHeading).parts == [] then Final(lines, stripped, minLength, isHeading).title == IntroTitle
            else isHeading(Final(lines, stripped, minLength, isHeading).title)
    ensures Final(lines, stripped, minLength, isHeading).parts != [] || Final(lines, stripped, minLength, isHeading).current != []
  {
    var m := MergeAt(stripped, 0, minLength, isHeading);
    RunShape(stripped, if m < |stripped| then m + 1 else |stripped|, minLength, isHeading);
  }

  /** Closing a state of that shape gives sections of the promised shape. */
  lemma CloseShape(p: Progress, minLength: int, isHeading: string -> bool)
    requires Closed(Render(p.parts), minLength, isHeading)
    requires if p.parts == [] then p.title == IntroTitle else isHeading(p.title)
    requires p.parts != [] || p.current != []
    ensures Shaped(Render(Close(p, minLength)), minLength, isHeading)
  {
    if KeepsLast(p, minLength) {
      RenderSnoc(p.parts, Part(p.title, p.current));
    }
  }

  /** A text without headings is one "引言" section of all its stripped lines. */
  lemma SectionsNoHeading(lines: seq<string>, stripped: seq<string>, minLength: int, isHeading: string -> bool)
    requires |lines| >= 1 && |stripped| == |lines|
    requires forall j :: 0 <= j < |stripped| ==> !isHeading(stripped[j])
    ensures Close(Final(lines, stripped, minLength, isHeading), minLength) == [Part(IntroTitle, stripped)]
  {
    var m := MergeAt(stripped, 0, minLength, isHeading);
    RunNoHeading(stripped, |stripped|, minLength, isHeading);
    if m < |stripped| {
      RunNoHeading(stripped, m + 1, minLength, isHeading);
      assert false;
    }
    assert stripped[..|stripped|] == stripped;
  }

  /** The sections of every text have the promised shape; a text without headings is one "引言" section. */
  lemma SectionsShape(lines: seq<string>, stripped: seq<string>, minLength: int, isHeading: string -> bool)
    requires |lines| >= 1 && |stripped| == |lines|
    ensures Shaped(Render(Close(Final(lines, stripped, minLength, isHeading), minLength)), minLength, isHeading)
    ensures (forall j :: 0 <= j < |stripped| ==> !isHeading(stripped[j])) ==>
              Render(Close(Final(lines, stripped, minLength, isHeading), minLength)) == [Section(IntroTitle, Join("\n", stripped))]
  {
    FinalShape(lines, stripped, minLength, isHeading);
    CloseShape(Final(lines, stripped, minLength, isHeading), minLength, isHeading);
    if forall j :: 0 <= j < |stripped| ==> !isHeading(stripped[j]) {
      SectionsNoHeading(lines, stripped, minLength, isHeading);
      assert Render([Part(IntroTitle, stripped)]) == [Section(IntroTitle, Join("\n", stripped))];
    }
  }

  /**
   * One line of the splitting loop, over the sections closed so far, the
   * lines of the open section and its title: the loop state moves one `Step`
   * on.
   */
  method TakeLine(sections: seq<Section>, current: seq<string>, title: string, line: string, minLength: int, isHeading: string -> bool,
                  ghost p: Progress)
    returns (sections': seq<Section>, current': seq<string>, title': string)
    requires sections == Render(p.parts) && current == p.current && title == p.title
    ensures sections' == Render(Step(p, line, minLength, isHeading).parts)
    ensures current' == Step(p, line, minLength, isHeading).current && title' == Step(p, line, minLength, isHeading).title
  {
    sections', current', title' := sections, current + [line], title;
    if isHeading(line) && current != [] {
      var sectionText := Join("\n", current);
      if |sectionText| >= minLength {
        sections', current', title' := sections + [Section(title, sectionText)], [], line;
        RenderSnoc(p.parts, Part(title, current));
      }
    }
  }

  /**
   * `split_into_sections(text, min_length)`: the lines of `text`, stripped,
   * split by `SplitLines` under the five heading patterns.
   */
  method SplitIntoSections(text: string, minLength: int) returns (sections: seq<Section>)
    ensures sections == Render(Close(Final(Split(text, '\n'), StripAll(Split(text, '\n')), minLength, IsHeading), minLength))
    ensures Shaped(sections, minLength, IsHeading)
    ensures NoHeading(StripAll(Split(text, '\n'))) ==> sections == [Section(IntroTitle, Join("\n", StripAll(Split(text, '\n'))))]
  {
    var lines := Split(text, '\n');
    sections := SplitLines(lines, StripAll(lines), minLength, IsHeading);
  }

  /**
   * The splitting loop over the lines of a text and the same lines
   * stripped, for any heading test `isHeading`. The result is the closed
   * `Final` state: never empty, opening with the "引言" section, every later
   * title a heading line, every section reaching `minLength` unless it is the
   * only one, and a text without headings one section of all its lines.
   */
  method SplitLines(lines: seq<string>, stripped: seq<string>, minLength: int, isHeading: string -> bool)
    returns (sections: seq<Section>)
    requires |lines| >= 1 && |stripped| == |lines|
    ensures sections == Render(Close(Final(lines, stripped, minLength, isHeading), minLength))
    ensures Shaped(sections, minLength, isHeading)
    ensures (forall j :: 0 <= j < |stripped| ==> !isHeading(stripped[j])) ==> sections == [Section(IntroTitle, Join("\n", stripped))]
  {
    var n := |lines|;
    sections := [];
    var current: seq<string> := [];
    var title := IntroTitle;
    var i := 0;
    var merged := false;
    while i < n && !merged
      invariant 0 <= i <= n
      invariant !merged ==> MergeAt(stripped, 0, minLength, isHeading) == MergeAt(stripped, i, minLength, isHeading)
      invariant !merged ==> sections == Render(Run(stripped, i, minLength, isHeading).parts)
      invariant !merged ==> current == Run(stripped, i, minLength, isHeading).current && title == Run(stripped, i, minLength, isHeading).title
      invariant merged ==> i > 0 && MergeAt(stripped, 0, minLength, isHeading) == i - 1
      invariant merged ==> sections == Render(Final(lines, stripped, minLength, isHeading).parts)
      invariant merged ==> current == Final(lines, stripped, minLength, isHeading).current && title == Final(lines, stripped, minLength, isHeading).title
    {
      ghost var p := Run(stripped, i, minLength, isHeading);
      sections, current, title := TakeLine(sections, current, title, stripped[i], minLength, isHeading, p);
      if |sections| >= 10 && PastSeventyPercent(i, n) {
        assert Merges(stripped, i, minLength, isHeading);
        current := current + lines[i + 1..];
        merged := true;
      }
      i := i + 1;
    }
    if current != [] {
      var sectionText := Join("\n", current);
      if |sectionText| >= minLength || sections == [] {
        RenderSnoc(Final(lines, stripped, minLength, isHeading).parts, Part(title, current));
        sections := sections + [Section(title, sectionText)];
      }
    }
    SectionsShape(lines, stripped, minLength, isHeading);
  }
}
