/**
 * The router: explicit `@name` mentions drawn from a fixed list of eleven
 * names, and, without a mention, a scenario override followed by an ordered
 * first-match keyword chain with the document analyst as the default.
 * The registry consulted is a parameter (`AgentDict`), since the router only
 * ever calls its `get`.
 */
module AgentRouter {
  import opened Wrappers
  import opened Strings
  import opened AgentCore
  import opened AgentRegistry

  /** The alternatives of the mention pattern, in the order the pattern lists them. */
  const MentionNames: seq<string> := ["文档分析师", "内容创作者", "数据专家", "校对编辑", "翻译专家", "合规官",
                                      "数据可视化专家", "知识管理专家", "提示词智能体", "协调者", "绘画智能体"]

  /** `m` appears in `text` at `i`, checked one character at a time. */
  predicate HasAt(text: string, m: string, i: nat)
    decreases |m|
  {
    i <= |text| && (m == [] || (i < |text| && text[i] == m[0] && HasAt(text, m[1..], i + 1)))
  }

  lemma {:induction false} HasAtOccurs(text: string, m: string, i: nat)
    ensures HasAt(text, m, i) <==> OccursAt(text, m, i)
    decreases |m|
  {
    if m != [] && i < |text| {
      HasAtOccurs(text, m[1..], i + 1);
      if i + |m| <= |text| {
        assert text[i..i + |m|] == [text[i]] + text[i + 1..i + |m|];
        assert m == [m[0]] + m[1..];
      }
    }
  }

  /** From `|a|` on, `a + b` holds what `b` holds. */
  lemma {:induction false} HasAtShifted(a: string, b: string, m: string, j: nat)
    ensures HasAt(a + b, m, |a| + j) <==> HasAt(b, m, j)
    decreases |m|
  {
    if m != [] && j < |b| {
      assert (a + b)[|a| + j] == b[j];
      HasAtShifted(a, b, m[1..], j + 1);
    }
  }

  /** Within `a`, `a + b` holds what `a` holds. */
  lemma {:induction false} HasAtPrefix(a: string, b: string, m: string, i: nat)
    requires i + |m| <= |a|
    ensures HasAt(a + b, m, i) <==> HasAt(a, m, i)
    decreases |m|
  {
    if m != [] {
      assert (a + b)[i] == a[i];
      HasAtPrefix(a, b, m[1..], i + 1);
    }
  }

  /** The first name `n` of `names` such that "@" + `n` occurs in `text` at `i`. */
  function MatchAt(text: string, i: nat, names: seq<string>): (r: Option<string>)
    ensures r.Some? ==> r.value in names
  {
    if |names| == 0 then None
    else if HasAt(text, "@" + names[0], i) then Some(names[0])
    else MatchAt(text, i, names[1..])
  }

  /** The name matched is mentioned at `i`, no earlier name of `names` is, and no match means no mention. */
  lemma {:induction false} MatchAtFacts(text: string, i: nat, names: seq<string>)
    ensures MatchAt(text, i, names).Some? ==> OccursAt(text, "@" + MatchAt(text, i, names).value, i)
    ensures MatchAt(text, i, names).Some? ==>
              exists k :: 0 <= k < |names| && names[k] == MatchAt(text, i, names).value
                          && forall l :: 0 <= l < k ==> !OccursAt(text, "@" + names[l], i)
    ensures MatchAt(text, i, names).None? ==> forall n :: n in names ==> !OccursAt(text, "@" + n, i)
    decreases |names|
  {
    if |names| > 0 {
      HasAtOccurs(text, "@" + names[0], i);
      MatchAtFacts(text, i, names[1..]);
      if HasAt(text, "@" + names[0], i) {
        assert names[0] == MatchAt(text, i, names).value;
      } else if MatchAt(text, i, names).Some? {
        var k :| 0 <= k < |names[1..]| && names[1..][k] == MatchAt(text, i, names).value
                 && forall l :: 0 <= l < k ==> !OccursAt(text, "@" + names[1..][l], i);
        forall l | 0 <= l < k + 1 ensures !OccursAt(text, "@" + names[l], i) {
          if l > 0 {
            assert names[l] == names[1..][l - 1];
          }
        }
        assert names[k + 1] == MatchAt(text, i, names).value;
      }
    }
  }

  /** No mention of a name of `names` starts at an index in [`i`, `j`). */
  predicate NoMentionBetween(text: string, i: int, j: int, names: seq<string>) {
    forall q, n :: i <= q < j && n in names ==> !OccursAt(text, "@" + n, q)
  }

  /**
   * `re.findall` from index `i` of the pattern `@(n1|n2|...)` over the
   * alternatives `names`: scanning left to right, a match contributes its
   * name and the scan resumes after it; otherwise the scan moves on by one
   * character.
   */
  function ParseFrom(text: string, i: nat, names: seq<string>): (r: seq<string>)
    ensures forall k :: 0 <= k < |r| ==> r[k] in names
    decreases |text| - i
  {
    if i >= |text| then []
    else
      match MatchAt(text, i, names)
      case Some(n) => [n] + ParseFrom(text, i + 1 + |n|, names)
      case None => ParseFrom(text, i + 1, names)
  }

  /**
   * Every name the scan from `i` reports is mentioned in `text`; it reports
   * nothing exactly when no mention starts at or after `i`; and no mention
   * starts between `i` and the first occurrence of the first reported one.
   */
  lemma {:induction false} ParseFromFinds(text: string, i: nat, names: seq<string>)
    ensures forall k :: 0 <= k < |ParseFrom(text, i, names)| ==> Contains(text, "@" + ParseFrom(text, i, names)[k])
    ensures ParseFrom(text, i, names) == [] <==> NoMentionBetween(text, i, |text|, names)
    ensures ParseFrom(text, i, names) != [] ==>
              FindFrom(text, "@" + ParseFrom(text, i, names)[0], i) != -1
              && NoMentionBetween(text, i, FindFrom(text, "@" + ParseFrom(text, i, names)[0], i), names)
    decreases |text| - i
  {
    if i < |text| {
      MatchAtFacts(text, i, names);
      match MatchAt(text, i, names)
      case Some(n) =>
        FindsMention(text, i, names, n);
      case None =>
        ParseFromFinds(text, i + 1, names);
        var rest := ParseFrom(text, i + 1, names);
        assert ParseFrom(text, i, names) == rest;
        if rest != [] {
          var f := FindFrom(text, "@" + rest[0], i + 1);
          assert FindFrom(text, "@" + rest[0], i) == f;
          NoMentionExtend(text, i, f, names);
        } else {
          NoMentionExtend(text, i, |text|, names);
        }
    }
  }

  /** The step of `ParseFromFinds` where a mention of `n` starts at `i`. */
  lemma {:induction false} FindsMention(text: string, i: nat, names: seq<string>, n: string)
    requires i < |text| && MatchAt(text, i, names) == Some(n) && OccursAt(text, "@" + n, i)
    ensures forall k :: 0 <= k < |ParseFrom(text, i, names)| ==> Contains(text, "@" + ParseFrom(text, i, names)[k])
    ensures ParseFrom(text, i, names) != [] && !NoMentionBetween(text, i, |text|, names)
    ensures FindFrom(text, "@" + ParseFrom(text, i, names)[0], i) == i
    decreases |text| - i, 0
  {
    ParseFromFinds(text, i + 1 + |n|, names);
    ContainsAt(text, "@" + n, i);
    var r := ParseFrom(text, i, names);
    var rest := ParseFrom(text, i + 1 + |n|, names);
    assert r == [n] + rest;
    forall k | 0 <= k < |r| ensures Contains(text, "@" + r[k]) {
      if k > 0 {
        assert r[k] == rest[k - 1];
      }
    }
  }

  /** A stretch free of mentions grows by one index on the left when no mention starts there. */
  lemma NoMentionExtend(text: string, i: int, j: int, names: seq<string>)
    requires NoMentionBetween(text, i + 1, j, names)
    requires forall n :: n in names ==> !OccursAt(text, "@" + n, i)
    ensures NoMentionBetween(text, i, j, names)
  {
  }

  /** `parse_mentions(text)`: the mentioned names, left to right, duplicates kept. */
  function ParseMentions(text: string): (r: seq<string>)
    ensures forall k :: 0 <= k < |r| ==> r[k] in MentionNames && Contains(text, "@" + r[k])
    ensures r == [] <==> forall q, n :: n in MentionNames ==> !OccursAt(text, "@" + n, q)
    ensures r != [] ==> Contains(text, "@" + r[0]) && NoMentionBetween(text, 0, Find(text, "@" + r[0]), MentionNames)
  {
    ParseFromFinds(text, 0, MentionNames);
    ParseFrom(text, 0, MentionNames)
  }

  /** The first index at or after `i` where a mention of a name of `names` starts, or `|text|` when none does. */
  function NextMention(text: string, i: nat, names: seq<string>): (q: nat)
    requires i <= |text|
    ensures i <= q <= |text|
    ensures q < |text| ==> MatchAt(text, q, names).Some?
    ensures NoMentionBetween(text, i, q, names)
    decreases |text| - i
  {
    if i == |text| then i
    else if MatchAt(text, i, names).Some? then i
    else
      var q := NextMention(text, i + 1, names);
      MatchAtFacts(text, i, names);
      NoMentionExtend(text, i, q, names);
      q
  }

  /**
   * The scan finds the mentions left to right: from `i` it skips to the
   * first index where a mention starts, records the first name of `names`
   * matching there, and resumes right after that mention.
   */
  lemma {:induction false} ParseFromScan(text: string, i: nat, names: seq<string>)
    requires i <= |text|
    ensures NextMention(text, i, names) == |text| ==> ParseFrom(text, i, names) == []
    ensures NextMention(text, i, names) < |text| ==>
              ParseFrom(text, i, names) == [MatchAt(text, NextMention(text, i, names), names).value]
                + ParseFrom(text, NextMention(text, i, names) + 1 + |MatchAt(text, NextMention(text, i, names), names).value|, names)
    decreases |text| - i
  {
    if i < |text| {
      var m := MatchAt(text, i, names);
      if m.None? {
        assert ParseFrom(text, i, names) == ParseFrom(text, i + 1, names);
        assert NextMention(text, i, names) == NextMention(text, i + 1, names);
        ParseFromScan(text, i + 1, names);
      } else {
        assert NextMention(text, i, names) == i;
        assert ParseFrom(text, i, names) == [m.value] + ParseFrom(text, i + 1 + |m.value|, names);
      }
    }
  }

  /** No mention of a name of `names` that starts inside `a` runs past its end once `b` follows. */
  predicate MentionBoundary(a: string, b: string, names: seq<string>) {
    forall q, n :: 0 <= q < |a| && n in names && OccursAt(a + b, "@" + n, q) ==> q + 1 + |n| <= |a|
  }

  /**
   * Mentions of a text made of two parts, split where no mention is cut, are
   * those of the first part followed by those of the second; in particular a
   * name mentioned twice is listed twice.
   */
  lemma ParseAppend(a: string, b: string, names: seq<string>)
    requires MentionBoundary(a, b, names)
    ensures ParseFrom(a + b, 0, names) == ParseFrom(a, 0, names) + ParseFrom(b, 0, names)
  {
    ParseAppendFrom(a, b, 0, names);
  }

  lemma {:induction false} ParseAppendFrom(a: string, b: string, i: nat, names: seq<string>)
    requires MentionBoundary(a, b, names) && i <= |a|
    ensures ParseFrom(a + b, i, names) == ParseFrom(a, i, names) + ParseFrom(b, 0, names)
    decreases |a| - i
  {
    var rest := ParseFrom(b, 0, names);
    if i == |a| {
      ParseShift(a, b, 0, names);
      assert ParseFrom(a, i, names) == [];
    } else {
      MatchInPrefix(a, b, i, names);
      match MatchAt(a, i, names)
      case Some(n) =>
        var j := i + 1 + |n|;
        ParseAppendFrom(a, b, j, names);
        assert ParseFrom(a + b, i, names) == [n] + ParseFrom(a + b, j, names);
        assert ParseFrom(a, i, names) == [n] + ParseFrom(a, j, names);
        assert [n] + (ParseFrom(a, j, names) + rest) == ([n] + ParseFrom(a, j, names)) + rest;
      case None =>
        ParseAppendFrom(a, b, i + 1, names);
        assert ParseFrom(a + b, i, names) == ParseFrom(a + b, i + 1, names);
        assert ParseFrom(a, i, names) == ParseFrom(a, i + 1, names);
    }
  }

  /** Inside `a`, `a + b` matches as `a` does, and a match there ends within `a`. */
  lemma {:induction false} MatchInPrefix(a: string, b: string, i: nat, names: seq<string>)
    requires MentionBoundary(a, b, names) && i < |a|
    ensures MatchAt(a + b, i, names) == MatchAt(a, i, names)
    ensures MatchAt(a, i, names).Some? ==> i + 1 + |MatchAt(a, i, names).value| <= |a|
    decreases |names|
  {
    if |names| > 0 {
      var m := "@" + names[0];
      HasAtOccurs(a + b, m, i);
      HasAtOccurs(a, m, i);
      if HasAt(a, m, i) || HasAt(a + b, m, i) {
        assert i + |m| <= |a|;
        HasAtPrefix(a, b, m, i);
      }
      assert MentionBoundary(a, b, names[1..]);
      MatchInPrefix(a, b, i, names[1..]);
    }
  }

  /** Scanning `a + b` from inside `b` is scanning `b`. */
  lemma {:induction false} ParseShift(a: string, b: string, j: nat, names: seq<string>)
    ensures ParseFrom(a + b, |a| + j, names) == ParseFrom(b, j, names)
    decreases |b| - j
  {
    if j < |b| {
      MatchShifted(a, b, j, names);
      match MatchAt(b, j, names)
      case Some(n) =>
        ParseShift(a, b, j + 1 + |n|, names);
        assert |a| + j + 1 + |n| == |a| + (j + 1 + |n|);
      case None =>
        ParseShift(a, b, j + 1, names);
    }
  }

  /** From `|a|` on, `a + b` matches as `b` does. */
  lemma {:induction false} MatchShifted(a: string, b: string, j: nat, names: seq<string>)
    ensures MatchAt(a + b, |a| + j, names) == MatchAt(b, j, names)
    decreases |names|
  {
    if |names| > 0 {
      HasAtShifted(a, b, "@" + names[0], j);
      MatchShifted(a, b, j, names[1..]);
    }
  }

  /** A text without '@' mentions nobody. */
  lemma NoAtNoMentions(text: string)
    requires '@' !in text
    ensures ParseMentions(text) == []
  {
    forall q, n | n in MentionNames ensures !OccursAt(text, "@" + n, q) {
      OccurrenceStart(text, "@" + n, q);
    }
  }

  /** What `route` returns, with the keys `chat` reads and their defaults when absent. */
  datatype Routing = Routing(agent: Option<Agent>, message: string, kind: string, reason: string, mentions: seq<string>)

  /** One branch of the keyword chain: any of `keywords` in the text selects `target`. */
  datatype Rule = Rule(keywords: seq<string>, target: string)

  /** `any(k in text for k in keywords)` */
  predicate AnyIn(text: string, keywords: seq<string>) {
    exists k :: 0 <= k < |keywords| && Contains(text, keywords[k])
  }

  /** The keyword chain of `_auto_route`, in order. */
  const AutoRules: seq<Rule> := [
    Rule(["总结", "摘要", "提取", "分析文档", "关键信息"], "文档分析师"),
    Rule(["撰写", "写一份", "生成", "邮件", "报告", "文案"], "内容创作者"),
    Rule(["数据", "表格", "统计", "趋势", "图表"], "数据专家"),
    Rule(["检查", "校对", "修改", "优化", "润色"], "校对编辑"),
    Rule(["翻译", "translate", "英文", "中文"], "翻译专家"),
    Rule(["合规", "审核", "风险", "违规", "法规", "监管"], "合规官"),
    Rule(["可视化", "图表", "画一个", "生成图", "柱状图", "饼图", "折线图", "仪表板", "chart", "html", "uml", "时序图", "绘图", "画图"],
         "数据可视化专家"),
    Rule(["知识库", "检索", "搜索", "查找", "多文档", "对比", "关联", "知识"], "知识管理专家"),
    Rule(["协同", "合作", "配合", "团队", "流程", "先", "然后"], "协调者")
  ]

  const DefaultTarget: string := "文档分析师"

  /** Index of the first rule whose keywords occur in `text`, or `|rules|` when none does. */
  function FirstRule(text: string, rules: seq<Rule>): (r: nat)
    ensures r <= |rules|
    ensures r < |rules| ==> AnyIn(text, rules[r].keywords)
    ensures forall j :: 0 <= j < r ==> !AnyIn(text, rules[j].keywords)
  {
    if |rules| == 0 then 0
    else if AnyIn(text, rules[0].keywords) then 0
    else 1 + FirstRule(text, rules[1..])
  }

  /** The agent name the keyword chain selects for an already lower-cased text. */
  function AutoTarget(lower: string): string {
    var i := FirstRule(lower, AutoRules);
    if i < |AutoRules| then AutoRules[i].target else DefaultTarget
  }

  /** Which agent name `_auto_route` looks up, the routing type it reports and the prefix of its reason. */
  datatype Choice = Choice(target: string, kind: string, reasonPrefix: string)

  function Choose(message: string, scenario: Option<string>): Choice {
    var lower := Lower(message);
    if scenario == Some("compliance") then
      Choice(if AnyIn(lower, ["撰写", "生成", "文案"]) then "内容创作者" else "合规官",
             "scenario_priority", "基于合规场景优先选择了")
    else if scenario == Some("investment") then
      Choice(if AnyIn(lower, ["数据", "表格", "趋势"]) then "数据专家" else "文档分析师",
             "scenario_priority", "基于投研场景优先选择了")
    else
      Choice(AutoTarget(lower), "auto", "根据关键词自动选择了")
  }

  /**
   * `_auto_route`: the chosen name is looked up; when the registry has no such
   * agent, reading its name for the reason raises.
   */
  function AutoRoute(d: AgentDict, message: string, scenario: Option<string>): (r: Result<Routing>)
    ensures r.Success? <==> GetFrom(d, Choose(message, scenario).target).Some?
    ensures r.Success? ==> r.value.agent == GetFrom(d, Choose(message, scenario).target)
                           && r.value.message == message && r.value.mentions == []
                           && r.value.kind == Choose(message, scenario).kind
                           && r.value.reason == Choose(message, scenario).reasonPrefix + r.value.agent.value.name
  {
    var choice := Choose(message, scenario);
    match GetFrom(d, choice.target)
    case None => Failure("AttributeError: 'NoneType' object has no attribute 'name'")
    case Some(agent) => Success(Routing(Some(agent), message, choice.kind, choice.reasonPrefix + agent.name, []))
  }

  /**
   * `route`: the first mention wins and its first literal "@" + name is cut
   * out of the message, which is then stripped; the source's second attempt,
   * for a mention absent from the message, can never run, so the message is
   * always cut at the first mention.
   */
  function Route(d: AgentDict, message: string, scenario: Option<string>): (r: Result<Routing>)
    ensures ParseMentions(message) != [] ==>
              r == Success(Routing(GetFrom(d, ParseMentions(message)[0]),
                                   Strip(ReplaceFirst(message, "@" + ParseMentions(message)[0], "")),
                                   "explicit", "", ParseMentions(message)))
    ensures ParseMentions(message) == [] ==> r == AutoRoute(d, message, scenario)
  {
    var mentions := ParseMentions(message);
    if mentions != [] then
      var name := mentions[0];
      var agent := GetFrom(d, name);
      var clean := Strip(ReplaceFirst(message, "@" + name, ""));
      var clean' :=
        match agent
        case Some(a) => if !Contains(message, "@" + name) then Strip(ReplaceFirst(message, "@" + a.name, "")) else clean
        case None => clean;
      Success(Routing(agent, clean', "explicit", "", mentions))
    else
      AutoRoute(d, message, scenario)
  }

  /**
   * `clean` is `message` with the first occurrence of the mention `m` cut
   * out and the rest stripped: the cut text is there, and no mention of a
   * listed name starts before it.
   */
  predicate CutAtFirstMention(message: string, m: string, clean: string) {
    var p := Find(message, m);
    0 <= p && p + |m| <= |message| && message[p..p + |m|] == m
    && NoMentionBetween(message, 0, p, MentionNames)
    && clean == Strip(message[..p] + message[p + |m|..])
  }

  /**
   * What `route` cuts out of a message with a mention (its contract's
   * `ReplaceFirst` of "@" + the first name) is the first mention in the
   * message: nothing before it is a mention of any listed name.
   */
  lemma ExplicitCutsFirstMention(message: string)
    requires ParseMentions(message) != []
    ensures var m := "@" + ParseMentions(message)[0];
            CutAtFirstMention(message, m, Strip(ReplaceFirst(message, m, "")))
  {
    var m := "@" + ParseMentions(message)[0];
    CutFirstMention(message, m);
  }

  /** Cutting out the first occurrence of a mention with no mention before it. */
  lemma CutFirstMention(message: string, m: string)
    requires Contains(message, m) && NoMentionBetween(message, 0, Find(message, m), MentionNames)
    ensures CutAtFirstMention(message, m, Strip(ReplaceFirst(message, m, "")))
  {
    CutOccurrence(message, m);
  }

  /** Removing the first occurrence of `m` leaves the text around it. */
  lemma CutOccurrence(message: string, m: string)
    requires Contains(message, m)
    ensures var p := Find(message, m);
            0 <= p && p + |m| <= |message| && message[p..p + |m|] == m
            && ReplaceFirst(message, m, "") == message[..p] + message[p + |m|..]
  {
    var p := Find(message, m);
    assert message[..p] + "" + message[p + |m|..] == message[..p] + message[p + |m|..];
  }

  /**
   * The scenario overrides: under 'compliance' the content creator when a
   * writing keyword occurs, else the compliance officer; under 'investment'
   * the data expert when a data keyword occurs, else the document analyst.
   */
  lemma ScenarioChoices(message: string)
    ensures Choose(message, Some("compliance")).target ==
              if Contains(Lower(message), "撰写") || Contains(Lower(message), "生成") || Contains(Lower(message), "文案")
              then "内容创作者" else "合规官"
    ensures Choose(message, Some("investment")).target ==
              if Contains(Lower(message), "数据") || Contains(Lower(message), "表格") || Contains(Lower(message), "趋势")
              then "数据专家" else "文档分析师"
  {
    AnyOfThree(Lower(message), "撰写", "生成", "文案");
    AnyOfThree(Lower(message), "数据", "表格", "趋势");
  }

  /** Any of three keywords occurs exactly when one of them does. */
  lemma AnyOfThree(text: string, a: string, b: string, c: string)
    ensures AnyIn(text, [a, b, c]) <==> Contains(text, a) || Contains(text, b) || Contains(text, c)
  {
    var keywords := [a, b, c];
    assert keywords[0] == a && keywords[1] == b && keywords[2] == c;
  }

  /**
   * "图表" is a data keyword checked before the visualisation rule, and
   * "生成图" contains the writing keyword "生成": neither can ever select the
   * visualisation expert.
   */
  lemma VisualisationShadowed(lower: string)
    requires AutoTarget(lower) == "数据可视化专家"
    ensures !Contains(lower, "图表") && !Contains(lower, "生成图")
  {
    var i := FirstRule(lower, AutoRules);
    assert i == 6;
    assert !AnyIn(lower, AutoRules[2].keywords);
    assert AutoRules[2].keywords[4] == "图表";
    assert !AnyIn(lower, AutoRules[1].keywords);
    assert AutoRules[1].keywords[2] == "生成";
    if Contains(lower, "生成图") {
      ContainsAt("生成图", "生成", 0);
      ContainsTransitive(lower, "生成图", "生成");
    }
  }

  /**
   * Every mentionable name finds an agent in the default registry; each of the
   * ten team names finds the agent of that name.
   */
  lemma DefaultMentionsResolve(i: nat)
    requires i < |MentionNames|
    ensures GetFrom(DefaultDict(), MentionNames[i]).Some?
    ensures i < 10 ==> GetFrom(DefaultDict(), MentionNames[i]) == Some(DefaultAgents[i])
  {
    if i == 10 {
      DefaultDrawingAlias();
    } else {
      DefaultFinds(i);
      TeamNameListed(i);
    }
  }

  lemma TeamNameListed(i: nat)
    requires i < 10
    ensures i < |DefaultAgents| && DefaultAgents[i].name == MentionNames[i]
  {
    if i == 0 { assert DefaultAgents[0] == DocumentAnalyst; }
    else if i == 1 { assert DefaultAgents[1] == ContentCreator; }
    else if i == 2 { assert DefaultAgents[2] == DataExpert; }
    else if i == 3 { assert DefaultAgents[3] == Editor; }
    else if i == 4 { assert DefaultAgents[4] == Translator; }
    else if i == 5 { assert DefaultAgents[5] == Compliance; }
    else if i == 6 { assert DefaultAgents[6] == DataVisualization; }
    else if i == 7 { assert DefaultAgents[7] == KnowledgeManager; }
    else if i == 8 { assert DefaultAgents[8] == PromptEngineer; }
    else { assert DefaultAgents[9] == Coordinator; }
  }

  /** Every name the automatic routing can look up is a team name. */
  lemma ChosenTargetIsTeamName(message: string, scenario: Option<string>) returns (i: nat)
    ensures i < |DefaultAgents| && Choose(message, scenario).target == MentionNames[i]
  {
    var lower := Lower(message);
    if scenario == Some("compliance") {
      i := if AnyIn(lower, ["撰写", "生成", "文案"]) then 1 else 5;
    } else if scenario == Some("investment") {
      i := if AnyIn(lower, ["数据", "表格", "趋势"]) then 2 else 0;
    } else {
      i := AutoTargetIsTeamName(lower);
    }
  }

  lemma AutoTargetIsTeamName(lower: string) returns (i: nat)
    ensures i < |DefaultAgents| && AutoTarget(lower) == MentionNames[i]
  {
    var k := FirstRule(lower, AutoRules);
    if k < |AutoRules| {
      i := if k == 8 then 9 else k;
      assert AutoRules[k].target == MentionNames[i];
    } else {
      i := 0;
    }
  }

  /**
   * With the default registry routing never raises and always yields an
   * agent; without a mention that agent is the one whose name was chosen.
   */
  lemma DefaultRoutingSucceeds(message: string, scenario: Option<string>)
    ensures Route(DefaultDict(), message, scenario).Success?
    ensures Route(DefaultDict(), message, scenario).value.agent.Some?
    ensures ParseMentions(message) == [] ==>
              Route(DefaultDict(), message, scenario).value.agent.value.name == Choose(message, scenario).target
  {
    if ParseMentions(message) != [] {
      DefaultExplicitRoute(message, scenario);
    } else {
      DefaultChosenRoute(message, scenario);
    }
  }

  lemma DefaultExplicitRoute(message: string, scenario: Option<string>)
    requires ParseMentions(message) != []
    ensures GetFrom(DefaultDict(), ParseMentions(message)[0]).Some?
  {
    var i := MentionIndex(ParseMentions(message)[0]);
    DefaultMentionsResolve(i);
  }

  lemma DefaultChosenRoute(message: string, scenario: Option<string>)
    ensures GetFrom(DefaultDict(), Choose(message, scenario).target).Some?
    ensures GetFrom(DefaultDict(), Choose(message, scenario).target).value.name == Choose(message, scenario).target
  {
    var i := ChosenTargetIsTeamName(message, scenario);
    DefaultMentionsResolve(i);
    TeamNameListed(i);
  }

  lemma MentionIndex(n: string) returns (i: nat)
    requires n in MentionNames
    ensures i < |MentionNames| && MentionNames[i] == n
  {
    i :| i < |MentionNames| && MentionNames[i] == n;
  }

  /** No keyword of `keywords` occurs in `text` when none of their first characters does. */
  lemma FirstCharsAbsent(text: string, keywords: seq<string>)
    requires forall k :: 0 <= k < |keywords| ==> |keywords[k]| > 0 && keywords[k][0] !in text
    ensures !AnyIn(text, keywords)
  {
    forall k | 0 <= k < |keywords| ensures !Contains(text, keywords[k]) {
      NotContainsChar(text, keywords[k], 0);
    }
  }

  /**
   * Without a mention, the default registry routes to the agent named by the
   * choice, with the message unchanged and the reason naming that agent.
   */
  lemma DefaultAutoRoute(message: string, scenario: Option<string>, i: nat)
    requires ParseMentions(message) == []
    requires i < |DefaultAgents| && DefaultAgents[i].name == Choose(message, scenario).target
    ensures Route(DefaultDict(), message, scenario)
            == Success(Routing(Some(DefaultAgents[i]), message, Choose(message, scenario).kind,
                               Choose(message, scenario).reasonPrefix + DefaultAgents[i].name, []))
  {
    DefaultFinds(i);
  }

  lemma SummaryText(t: string)
    requires t == "帮我总结这份文档"
    ensures Choose(t, None) == Choice(DocumentAnalyst.name, "auto", "根据关键词自动选择了")
  {
    LowerUnchanged(t);
    ContainsAt(t, "总结", 2);
    FirstRuleHit(t, AutoRules, 0);
  }

  /** A keyword of the first rule occurring in the text selects that rule. */
  lemma FirstRuleHit(text: string, rules: seq<Rule>, k: int)
    requires |rules| > 0 && 0 <= k < |rules[0].keywords| && Contains(text, rules[0].keywords[k])
    ensures FirstRule(text, rules) == 0
  {
  }

  /** A request to summarise a document goes to the document analyst. */
  lemma SummaryRequestRoutes()
    ensures Route(DefaultDict(), "帮我总结这份文档", None)
            == Success(Routing(Some(DocumentAnalyst), "帮我总结这份文档", "auto", "根据关键词自动选择了" + DocumentAnalyst.name, []))
  {
    NoAtNoMentions("帮我总结这份文档");
    SummaryText("帮我总结这份文档");
    DefaultAutoRoute("帮我总结这份文档", None, 0);
  }

  /** None of the first six keyword groups occurs in the pie-chart request. */
  lemma PieTextMissesEarlierRules(t: string)
    requires t == "画一个饼图展示不同基金类型的占比"
    ensures forall j :: 0 <= j < 6 ==> !AnyIn(t, AutoRules[j].keywords)
  {
    FirstCharsAbsent(t, AutoRules[0].keywords);
    FirstCharsAbsent(t, AutoRules[1].keywords);
    PieTextMissesData(t);
    PieTextMissesLaterRules(t);
  }

  lemma PieTextMissesData(t: string)
    requires t == "画一个饼图展示不同基金类型的占比"
    ensures !AnyIn(t, AutoRules[2].keywords)
  {
    var data := AutoRules[2].keywords;
    FirstCharsAbsent(t, data[..4]);
    NotContainsChar(t, data[4], 1);
    forall k | 0 <= k < |data| ensures !Contains(t, data[k]) {
      if k < 4 { assert data[k] == data[..4][k]; }
    }
  }

  lemma PieTextMissesLaterRules(t: string)
    requires t == "画一个饼图展示不同基金类型的占比"
    ensures !AnyIn(t, AutoRules[3].keywords) && !AnyIn(t, AutoRules[4].keywords) && !AnyIn(t, AutoRules[5].keywords)
  {
    FirstCharsAbsent(t, AutoRules[3].keywords);
    PieTextMissesTranslation(t);
    FirstCharsAbsent(t, AutoRules[5].keywords);
  }

  lemma PieTextMissesTranslation(t: string)
    requires t == "画一个饼图展示不同基金类型的占比"
    ensures !AnyIn(t, AutoRules[4].keywords)
  {
    FirstCharsAbsent(t, AutoRules[4].keywords);
  }

  lemma PieText(t: string)
    requires t == "画一个饼图展示不同基金类型的占比"
    ensures ParseMentions(t) == [] && Choose(t, None) == Choice(DataVisualization.name, "auto", "根据关键词自动选择了")
  {
    PiePlain(t);
    PieFirstRule(t);
  }

  lemma PiePlain(t: string)
    requires t == "画一个饼图展示不同基金类型的占比"
    ensures ParseMentions(t) == [] && Lower(t) == t
  {
    NoAtNoMentions(t);
    LowerUnchanged(t);
  }

  lemma PieFirstRule(t: string)
    requires t == "画一个饼图展示不同基金类型的占比"
    ensures FirstRule(t, AutoRules) == 6
  {
    PieTextMissesEarlierRules(t);
    ContainsAt(t, "画一个", 0);
    assert AutoRules[6].keywords[2] == "画一个";
  }

  /** A request to draw a pie chart goes to the visualisation expert. */
  lemma PieChartRequestRoutes(t: string)
    requires t == "画一个饼图展示不同基金类型的占比"
    ensures Route(DefaultDict(), t, None)
            == Success(Routing(Some(DataVisualization), t, "auto", "根据关键词自动选择了" + DataVisualization.name, []))
  {
    PieText(t);
    TeamNameListed(6);
    DefaultAutoRoute(t, None, 6);
  }
}
