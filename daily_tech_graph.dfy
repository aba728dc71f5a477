/**
 * The daily technology report workflow: collect raw news for some keywords,
 * cluster it into themes, summarise the themes, chart them, write the report
 * and, on request, translate it. The graph is a straight line of six nodes,
 * so the compiled graph is the six node methods called in order on one
 * state. The agents answer through the model oracle `llm`; the current date
 * is the parameter `today`.
 */
module DailyTechGraph {
  import opened Wrappers
  import opened Strings
  import opened AgentCore

  /** The tag the data expert is asked to end its answer with. */
  const DateTag: string := "LATEST_DATE:"

  /** `YYYY-MM-DD` with ASCII digits: what `\d{4}-\d{2}-\d{2}` matches. */
  predicate DateShape(d: string) {
    |d| == 10 && d[4] == '-' && d[7] == '-'
    && forall k :: 0 <= k < 10 && k != 4 && k != 7 ==> IsDigit(d[k])
  }

  /** The end of the run of `\s` characters starting at `j`. */
  function SpaceEnd(s: string, j: nat): (r: nat)
    requires j <= |s|
    ensures j <= r <= |s|
    ensures forall k :: j <= k < r ==> IsSpace(s[k])
    ensures r < |s| ==> !IsSpace(s[r])
    decreases |s| - j
  {
    if j < |s| && IsSpace(s[j]) then SpaceEnd(s, j + 1) else j
  }

  /**
   * The date captured by `LATEST_DATE:\s*(\d{4}-\d{2}-\d{2})` when a match
   * starts at `i`. Digits are not spaces, so the greedy `\s*` never has to
   * give a character back.
   */
  function DateAt(s: string, i: nat): (r: Option<string>)
    ensures r.Some? ==> DateShape(r.value) && OccursAt(s, DateTag, i)
  {
    if OccursAt(s, DateTag, i) then
      var j := SpaceEnd(s, i + |DateTag|);
      if j + 10 <= |s| && DateShape(s[j..j + 10]) then Some(s[j..j + 10]) else None
    else None
  }

  /** The leftmost match position at or after `from`, as `re.search` scans. */
  function FirstDateFrom(s: string, from: nat): (r: Option<nat>)
    ensures r.Some? ==> from <= r.value <= |s| && DateAt(s, r.value).Some?
    ensures r.Some? ==> forall k :: from <= k < r.value ==> DateAt(s, k).None?
    ensures r.None? ==> forall k :: from <= k <= |s| ==> DateAt(s, k).None?
    decreases |s| + 1 - from
  {
    if from > |s| then None
    else if DateAt(s, from).Some? then Some(from)
    else FirstDateFrom(s, from + 1)
  }

  /**
   * The date `re.search` finds in the collector's answer, or `None` when no
   * tag in the answer is followed by a date.
   */
  function LatestDate(s: string): (r: Option<string>)
    ensures r.Some? ==> DateShape(r.value)
  {
    match FirstDateFrom(s, 0)
    case Some(i) => DateAt(s, i)
    case None => None
  }

  /**
   * The date found is the one after the leftmost `LATEST_DATE:` tag that a
   * date follows, and there is none exactly when no tag is followed by one.
   */
  lemma LatestDateLeftmost(s: string)
    ensures LatestDate(s).Some? <==> exists k :: 0 <= k <= |s| && DateAt(s, k).Some?
    ensures LatestDate(s).Some? ==> exists k :: 0 <= k <= |s| && DateAt(s, k) == LatestDate(s)
                                     && forall k' :: 0 <= k' < k ==> DateAt(s, k').None?
  {
    var first := FirstDateFrom(s, 0);
    if first.Some? {
      assert DateAt(s, first.value) == LatestDate(s);
    }
  }

  /**
   * An answer whose text starts with the tag, some spaces and a date yields
   * that date, whatever follows it.
   */
  lemma LatestDateOfTaggedLine(spaces: string, d: string, rest: string)
    requires forall k :: 0 <= k < |spaces| ==> IsSpace(spaces[k])
    requires DateShape(d)
    ensures LatestDate(DateTag + spaces + d + rest) == Some(d)
  {
    var s := DateTag + spaces + d + rest;
    var j := |DateTag| + |spaces|;
    assert s[..|DateTag|] == DateTag;
    assert OccursAt(s, DateTag, 0);
    assert forall k :: |DateTag| <= k < j ==> s[k] == spaces[k - |DateTag|];
    assert s[j] == d[0] && IsDigit(d[0]);
    assert SpaceEnd(s, |DateTag|) == j;
    assert s[j..j + 10] == d;
    assert DateAt(s, 0) == Some(d);
  }

  /** The report date: the date found in the collected feed, or today. */
  function ReportDate(feed: string, today: string): (r: string)
    ensures LatestDate(feed).Some? ==> r == LatestDate(feed).value && DateShape(r)
    ensures LatestDate(feed).None? ==> r == today
  {
    match LatestDate(feed)
    case Some(d) => d
    case None => today
  }

  /** The text an agent answers with, or `None` when its model raised. */
  function Answer(agent: Agent, prompt: string, llm: Llm): (r: Option<string>)
    ensures r.Some? <==> Ask(agent, prompt, llm).Reply?
    ensures r.Some? ==> r.value == Ask(agent, prompt, llm).text
  {
    match Ask(agent, prompt, llm)
    case Reply(text) => Some(text)
    case Raised(_) => None
  }

  const CollectOpening: string := "基于关键词: "
  const CollectDays: string := "，汇总最近"
  const CollectInstructions: string :=
    "天的科技动态要点。按主题列出来源、时间、摘要、影响，输出结构化要点列表。如果无法联网，基于已知行业常识给出代表性动态示例。在最后一行严格输出 'LATEST_DATE: YYYY-MM-DD'，为素材中最新日期，若不确定则为今天。"
  const ClusterOpening: string := "将以下素材去重并聚类为3-7个主题，给出每个主题的决策相关性评分(0-100)与代表事件。\n\n"
  const SummaryOpening: string := "根据主题聚类生成简明摘要，包含关键趋势、机会、风险与关注公司。输出分节小标题+要点。\n\n"
  const ChartOpening: string := "基于主题与评分，生成Mermaid饼图或柱状图，展示主题占比或重要度。只输出```mermaid```代码块，不要解释文字。\n\n"
  const WriteOpening: string := "撰写《每日科技动态》报告。关键词: "
  const WriteDate: string := "。\n日期："
  const WriteInstructions: string :=
    "\n结构：封面、目录、主题摘要、机会与风险、关注公司、可视化。\n语言：专业、简洁。报告头部日期必须与素材最新日期一致。\n包含以下Mermaid代码原样嵌入：\n\n"
  const TranslateOpening: string := "将以下日报翻译为英文，保留结构与Mermaid代码。\n\n"

  /** The keywords as the prompts list them. */
  function KeywordList(keywords: seq<string>): string {
    Join(", ", keywords)
  }

  function CollectPrompt(keywords: seq<string>, days: int): string {
    CollectOpening + KeywordList(keywords) + CollectDays + IntToString(days) + CollectInstructions
  }

  /** The writing prompt up to the date. */
  function WriteHead(keywords: seq<string>): string {
    WriteOpening + KeywordList(keywords) + WriteDate
  }

  /** The writing prompt after the date: the instructions, the summary, a blank line and the charts. */
  function WriteBody(summary: string, charts: string): string {
    WriteInstructions + summary + "\n\n" + charts
  }

  function WritePrompt(keywords: seq<string>, date: string, summary: string, charts: string): string {
    WriteHead(keywords) + date + WriteBody(summary, charts)
  }

  /** The writing prompt opens with the keyword line and carries the date right after it. */
  lemma WritePromptCarries(keywords: seq<string>, date: string, summary: string, charts: string)
    ensures var p := WritePrompt(keywords, date, summary, charts);
            StartsWith(p, WriteOpening + KeywordList(keywords))
            && OccursAt(p, date, |WriteHead(keywords)|)
            && EndsWith(p, WriteBody(summary, charts))
  {
    var p := WritePrompt(keywords, date, summary, charts);
    var head := WriteOpening + KeywordList(keywords);
    assert p[..|head|] == head;
    OccursBetween(WriteHead(keywords), date, WriteBody(summary, charts));
    assert p[|p| - |WriteBody(summary, charts)|..] == WriteBody(summary, charts);
  }

  /** After the date come the instructions, the summary and then the charts, which end the prompt. */
  lemma WriteBodyCarries(summary: string, charts: string)
    ensures OccursAt(WriteBody(summary, charts), summary, |WriteInstructions|)
    ensures EndsWith(WriteBody(summary, charts), "\n\n" + charts)
  {
    var body := WriteBody(summary, charts);
    OccursBetween(WriteInstructions, summary, "\n\n" + charts);
    assert body[|body| - |"\n\n" + charts|..] == "\n\n" + charts;
  }

  /** The workflow state; the three inputs never change. */
  class DailyTechState {
    const keywords: seq<string>
    const days: int
    const needEn: bool
    var rawFeed: Option<string>
    var clusters: Option<string>
    var summary: Option<string>
    var charts: Option<string>
    var report: Option<string>
    var translated: Option<string>
    var reportDate: Option<string>

    /** `run_daily_tech_flow`'s initial state: every output is unset. */
    constructor(keywords: seq<string>, days: int, needEn: bool)
      ensures this.keywords == keywords && this.days == days && this.needEn == needEn
      ensures rawFeed == None && clusters == None && summary == None && charts == None
      ensures report == None && translated == None && reportDate == None
    {
      this.keywords := keywords;
      this.days := days;
      this.needEn := needEn;
      rawFeed := None;
      clusters := None;
      summary := None;
      charts := None;
      report := None;
      translated := None;
      reportDate := None;
    }

    /**
     * `node_collect`: the data expert's answer becomes the raw feed and the
     * report date is the date it announces, or today. A model error
     * propagates before anything is written.
     */
    method Collect(llm: Llm, today: string) returns (raised: bool)
      modifies this
      ensures var feed := Answer(DataExpert, CollectPrompt(keywords, days), llm);
              raised <==> feed.None?
      ensures raised ==> unchanged(this)
      ensures !raised ==> rawFeed == Answer(DataExpert, CollectPrompt(keywords, days), llm)
                          && reportDate == Some(ReportDate(rawFeed.value, today))
      ensures !raised ==> clusters == old(clusters) && summary == old(summary) && charts == old(charts)
                          && report == old(report) && translated == old(translated)
    {
      var feed := Answer(DataExpert, CollectPrompt(keywords, days), llm);
      if feed.None? {
        return true;
      }
      rawFeed := feed;
      reportDate := Some(ReportDate(feed.value, today));
      raised := false;
    }

    /** `node_cluster`: the analyst's themes for the raw feed. */
    method Cluster(llm: Llm) returns (raised: bool)
      requires rawFeed.Some?
      modifies this
      ensures raised <==> Answer(DocumentAnalyst, ClusterOpening + old(rawFeed.value), llm).None?
      ensures raised ==> unchanged(this)
      ensures !raised ==> clusters == Answer(DocumentAnalyst, ClusterOpening + old(rawFeed.value), llm)
      ensures !raised ==> rawFeed == old(rawFeed) && summary == old(summary) && charts == old(charts)
                          && report == old(report) && translated == old(translated) && reportDate == old(reportDate)
    {
      var answer := Answer(DocumentAnalyst, ClusterOpening + rawFeed.value, llm);
      if answer.None? {
        return true;
      }
      clusters := answer;
      raised := false;
    }

    /** `node_summarize`: the analyst's summary of the themes. */
    method Summarize(llm: Llm) returns (raised: bool)
      requires clusters.Some?
      modifies this
      ensures raised <==> Answer(DocumentAnalyst, SummaryOpening + old(clusters.value), llm).None?
      ensures raised ==> unchanged(this)
      ensures !raised ==> summary == Answer(DocumentAnalyst, SummaryOpening + old(clusters.value), llm)
      ensures !raised ==> rawFeed == old(rawFeed) && clusters == old(clusters) && charts == old(charts)
                          && report == old(report) && translated == old(translated) && reportDate == old(reportDate)
    {
      var answer := Answer(DocumentAnalyst, SummaryOpening + clusters.value, llm);
      if answer.None? {
        return true;
      }
      summary := answer;
      raised := false;
    }

    /** `node_visualize`: the visualisation expert's chart of the themes. */
    method Visualize(llm: Llm) returns (raised: bool)
      requires clusters.Some?
      modifies this
      ensures raised <==> Answer(DataVisualization, ChartOpening + old(clusters.value), llm).None?
      ensures raised ==> unchanged(this)
      ensures !raised ==> charts == Answer(DataVisualization, ChartOpening + old(clusters.value), llm)
      ensures !raised ==> rawFeed == old(rawFeed) && clusters == old(clusters) && summary == old(summary)
                          && report == old(report) && translated == old(translated) && reportDate == old(reportDate)
    {
      var answer := Answer(DataVisualization, ChartOpening + clusters.value, llm);
      if answer.None? {
        return true;
      }
      charts := answer;
      raised := false;
    }

    /** The date the report is written for: the report date when it is set and non-empty, else today. */
    function DateLine(today: string): (r: string)
      reads this
      ensures reportDate.Some? && reportDate.value != "" ==> r == reportDate.value
      ensures reportDate.None? || reportDate.value == "" ==> r == today
    {
      if reportDate.Some? && reportDate.value != "" then reportDate.value else today
    }

    /** `node_write`: the content creator's report from the summary and the charts. */
    method Write(llm: Llm, today: string) returns (raised: bool)
      requires summary.Some? && charts.Some?
      modifies this
      ensures var prompt := WritePrompt(keywords, old(DateLine(today)), old(summary.value), old(charts.value));
              raised <==> Answer(ContentCreator, prompt, llm).None?
      ensures raised ==> unchanged(this)
      ensures !raised ==> report == Answer(ContentCreator, WritePrompt(keywords, old(DateLine(today)), old(summary.value), old(charts.value)), llm)
      ensures !raised ==> rawFeed == old(rawFeed) && clusters == old(clusters) && summary == old(summary)
                          && charts == old(charts) && translated == old(translated) && reportDate == old(reportDate)
    {
      var answer := Answer(ContentCreator, WritePrompt(keywords, DateLine(today), summary.value, charts.value), llm);
      if answer.None? {
        return true;
      }
      report := answer;
      raised := false;
    }

    /** `node_translate`: without `need_en` nothing happens; otherwise the translator's English report. */
    method Translate(llm: Llm) returns (raised: bool)
      requires needEn ==> report.Some?
      modifies this
      ensures !needEn ==> !raised && unchanged(this)
      ensures needEn ==> (raised <==> Answer(Translator, TranslateOpening + old(report.value), llm).None?)
      ensures needEn && raised ==> unchanged(this)
      ensures needEn && !raised ==> translated == Answer(Translator, TranslateOpening + old(report.value), llm)
      ensures rawFeed == old(rawFeed) && clusters == old(clusters) && summary == old(summary)
              && charts == old(charts) && report == old(report) && reportDate == old(reportDate)
    {
      if !needEn {
        return false;
      }
      var answer := Answer(Translator, TranslateOpening + report.value, llm);
      if answer.None? {
        return true;
      }
      translated := answer;
      raised := false;
    }

    /**
     * The themes, summary and charts nodes. Both the summary and the charts
     * are made from the clusters, not from each other.
     */
    method Analyze(llm: Llm) returns (raised: bool)
      requires rawFeed.Some?
      modifies this
      ensures rawFeed == old(rawFeed) && report == old(report) && translated == old(translated) && reportDate == old(reportDate)
      ensures !raised ==> clusters == Answer(DocumentAnalyst, ClusterOpening + rawFeed.value, llm) && clusters.Some?
      ensures !raised ==> summary == Answer(DocumentAnalyst, SummaryOpening + clusters.value, llm) && summary.Some?
      ensures !raised ==> charts == Answer(DataVisualization, ChartOpening + clusters.value, llm) && charts.Some?
    {
      raised := Cluster(llm);
      if raised {
        return;
      }
      raised := Summarize(llm);
      if raised {
        return;
      }
      raised := Visualize(llm);
    }

    /**
     * The compiled graph: collect, cluster, summarise, visualise, write,
     * translate. Without a model error every output is the named agent's
     * answer to the prompt built from the outputs before it, the report is
     * written for the date the feed announces (or today), and an English
     * version exists exactly when it was asked for or existed before.
     */
    method Run(llm: Llm, today: string) returns (raised: bool)
      modifies this
      ensures !raised ==> rawFeed == Answer(DataExpert, CollectPrompt(keywords, days), llm) && rawFeed.Some?
      ensures !raised ==> reportDate == Some(ReportDate(rawFeed.value, today))
      ensures !raised ==> clusters == Answer(DocumentAnalyst, ClusterOpening + rawFeed.value, llm) && clusters.Some?
      ensures !raised ==> summary == Answer(DocumentAnalyst, SummaryOpening + clusters.value, llm) && summary.Some?
      ensures !raised ==> charts == Answer(DataVisualization, ChartOpening + clusters.value, llm) && charts.Some?
      ensures !raised ==> report == Answer(ContentCreator, WritePrompt(keywords, DateLine(today), summary.value, charts.value), llm)
                          && report.Some?
      ensures !raised && needEn ==> translated == Answer(Translator, TranslateOpening + report.value, llm) && translated.Some?
      ensures !needEn ==> translated == old(translated)
    {
      raised := Collect(llm, today);
      if raised {
        return;
      }
      raised := Analyze(llm);
      if raised {
        return;
      }
      raised := Write(llm, today);
      if raised {
        return;
      }
      raised := Translate(llm);
    }
  }

  /**
   * `run_daily_tech_flow(keywords, days, need_en)`: from the initial state,
   * a run without model errors ends with a report, an English version
   * exactly when one was asked for, and a report date that is either a
   * `YYYY-MM-DD` date found in the feed or today.
   */
  method RunDailyTechFlow(keywords: seq<string>, days: int, needEn: bool, llm: Llm, today: string)
    returns (state: DailyTechState, raised: bool)
    ensures fresh(state) && state.keywords == keywords && state.days == days && state.needEn == needEn
    ensures !raised ==> state.rawFeed.Some? && state.summary.Some? && state.charts.Some? && state.report.Some? && state.reportDate.Some?
    ensures !raised ==> (state.translated.Some? <==> needEn)
    ensures !raised ==> state.reportDate.value == today || DateShape(state.reportDate.value)
    ensures !raised ==> state.report == Answer(ContentCreator, WritePrompt(keywords, state.DateLine(today),
                                                                        state.summary.value, state.charts.value), llm)
  {
    state := new DailyTechState(keywords, days, needEn);
    raised := state.Run(llm, today);
  }
}
