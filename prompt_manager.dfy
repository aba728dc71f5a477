/**
 * The prompt library: a JSON file holding a list of saved prompts, which the
 * manager reads whole, changes and writes back whole, and the prompt
 * optimiser that asks the prompt engineer agent for a better prompt and
 * cuts a JSON object out of its answer. The file is the field `file`; the
 * random ids and timestamps are parameters.
 */
module PromptManager {
  import opened Wrappers
  import opened Strings
  import opened JsonValues
  import opened AgentCore

  /** One saved prompt. */
  datatype PromptRecord = PromptRecord(id: string, title: string, content: string, tags: seq<string>, createdAt: string)

  /** The prompts file as the manager finds it at start-up. */
  datatype Disk =
    | Absent
      /** `None`: the file exists but `json.load` fails on it. */
    | Present(contents: Option<seq<PromptRecord>>)

  /** Whether some saved prompt has the id. */
  predicate HasId(ps: seq<PromptRecord>, id: string) {
    exists k :: 0 <= k < |ps| && ps[k].id == id
  }

  /** `[p for p in prompts if p['id'] != prompt_id]` */
  function Without(ps: seq<PromptRecord>, id: string): (r: seq<PromptRecord>)
    ensures |r| <= |ps|
    ensures forall k :: 0 <= k < |r| ==> r[k].id != id
  {
    if ps == [] then [] else (if ps[0].id == id then [] else [ps[0]]) + Without(ps[1..], id)
  }

  /**
   * The filter keeps every record whose id differs, as often as it occurs,
   * and no record with the id.
   */
  lemma {:induction false} WithoutCounts(ps: seq<PromptRecord>, id: string, p: PromptRecord)
    ensures multiset(Without(ps, id))[p] == if p.id == id then 0 else multiset(ps)[p]
  {
    if ps != [] {
      var head := if ps[0].id == id then [] else [ps[0]];
      WithoutCounts(ps[1..], id, p);
      assert ps == [ps[0]] + ps[1..];
      assert multiset(ps) == multiset([ps[0]]) + multiset(ps[1..]);
      assert multiset(Without(ps, id)) == multiset(head) + multiset(Without(ps[1..], id));
    }
  }

  /** The filter removes something exactly when some record has the id, and is the identity otherwise. */
  lemma {:induction false} WithoutShrinks(ps: seq<PromptRecord>, id: string)
    ensures |Without(ps, id)| < |ps| <==> HasId(ps, id)
    ensures !HasId(ps, id) ==> Without(ps, id) == ps
  {
    if ps != [] {
      WithoutShrinks(ps[1..], id);
      if HasId(ps[1..], id) {
        var k :| 0 <= k < |ps[1..]| && ps[1..][k].id == id;
        assert ps[k + 1].id == id;
      }
      if HasId(ps, id) && ps[0].id != id {
        var k :| 0 <= k < |ps| && ps[k].id == id;
        assert ps[1..][k - 1].id == id;
      }
    }
  }

  /** Deleting twice deletes nothing more. */
  lemma WithoutIdempotent(ps: seq<PromptRecord>, id: string)
    ensures Without(Without(ps, id), id) == Without(ps, id)
  {
    WithoutShrinks(Without(ps, id), id);
  }

  /** The position of the first saved prompt with the id, as the update loop finds it. */
  function FirstWithId(ps: seq<PromptRecord>, id: string): (r: Option<nat>)
    ensures r.None? <==> !HasId(ps, id)
    ensures r.Some? ==> r.value < |ps| && ps[r.value].id == id
    ensures r.Some? ==> forall k :: 0 <= k < r.value ==> ps[k].id != id
  {
    if ps == [] then None
    else if ps[0].id == id then Some(0)
    else match FirstWithId(ps[1..], id)
      case Some(i) => Some(i + 1)
      case None => None
  }

  /** The record `update_prompt` stores: new title, content and tags; id and timestamp kept. */
  function Edited(p: PromptRecord, title: string, content: string, tags: seq<string>): PromptRecord {
    p.(title := title, content := content, tags := tags)
  }

  /**
   * An edit keeps the record where a later update with the same id finds
   * it, so updating twice edits the same record.
   */
  lemma EditKeepsPosition(ps: seq<PromptRecord>, id: string, title: string, content: string, tags: seq<string>)
    requires FirstWithId(ps, id).Some?
    ensures var i := FirstWithId(ps, id).value;
            FirstWithId(ps[i := Edited(ps[i], title, content, tags)], id) == Some(i)
  {
    var i := FirstWithId(ps, id).value;
    var ps' := ps[i := Edited(ps[i], title, content, tags)];
    assert forall k :: 0 <= k < i ==> ps'[k] == ps[k];
    assert ps'[i].id == id;
    assert HasId(ps', id);
  }

  /** The prompt library over its JSON file. */
  class PromptStore {
    var file: Option<seq<PromptRecord>>

    /** `__init__` with `_ensure_file`: a missing file is created holding an empty list. */
    constructor(disk: Disk)
      ensures disk.Absent? ==> file == Some([])
      ensures disk.Present? ==> file == disk.contents
    {
      match disk
      case Absent => file := Some([]);
      case Present(contents) => file := contents;
    }

    /** `_read_prompts` */
    function ReadPrompts(): seq<PromptRecord>
      reads this
    {
      match file
      case Some(ps) => ps
      case None => []
    }

    /** `list_prompts`: the saved prompts, or none at all when the file cannot be read. */
    method ListPrompts() returns (prompts: seq<PromptRecord>)
      ensures file.None? ==> prompts == []
      ensures file.Some? ==> prompts == file.value
    {
      prompts := ReadPrompts();
    }

    /**
     * `save_prompt`: exactly one record, with the given fields, is appended
     * after the earlier ones and the list is written back; an unreadable
     * file is overwritten with the new record alone.
     */
    method SavePrompt(title: string, content: string, tags: seq<string>, id: string, createdAt: string)
      returns (record: PromptRecord)
      modifies this
      ensures record == PromptRecord(id, title, content, tags, createdAt)
      ensures file == Some(old(ReadPrompts()) + [record])
      ensures !HasId(old(ReadPrompts()), id) ==> FirstWithId(file.value, id) == Some(|old(ReadPrompts())|)
    {
      var prompts := ReadPrompts();
      record := PromptRecord(id, title, content, tags, createdAt);
      file := Some(prompts + [record]);
      assert forall k :: 0 <= k < |prompts| ==> file.value[k] == prompts[k];
      assert file.value[|prompts|].id == id;
      assert HasId(file.value, id);
    }

    /**
     * `delete_prompt`: every record with the id goes. The answer is true
     * exactly when some record had the id, and only then is the file
     * written.
     */
    method DeletePrompt(id: string) returns (deleted: bool)
      modifies this
      ensures deleted <==> HasId(old(ReadPrompts()), id)
      ensures deleted ==> file == Some(Without(old(ReadPrompts()), id))
      ensures !deleted ==> file == old(file)
    {
      var prompts := ReadPrompts();
      var kept := Without(prompts, id);
      WithoutShrinks(prompts, id);
      if |kept| < |prompts| {
        file := Some(kept);
        deleted := true;
      } else {
        deleted := false;
      }
    }

    /**
     * `update_prompt`: the first record with the id gets the new title,
     * content and tags and is returned; every other record stays as it was.
     * Without such a record the answer is `None` and nothing is written.
     */
    method UpdatePrompt(id: string, title: string, content: string, tags: seq<string>)
      returns (updated: Option<PromptRecord>)
      modifies this
      ensures var ps := old(ReadPrompts());
              match FirstWithId(ps, id)
              case None => updated == None && file == old(file)
              case Some(i) => updated == Some(Edited(ps[i], title, content, tags)) && file == Some(ps[i := updated.value])
    {
      var prompts := ReadPrompts();
      var i := 0;
      while i < |prompts|
        invariant 0 <= i <= |prompts|
        invariant forall k :: 0 <= k < i ==> prompts[k].id != id
      {
        if prompts[i].id == id {
          var p := Edited(prompts[i], title, content, tags);
          file := Some(prompts[i := p]);
          return Some(p);
        }
        i := i + 1;
      }
      return None;
    }
  }

  const OptimizeOpening: string := "作为一位资深的 Prompt Engineer，请优化以下提示词。\n\n**原始提示词**：\n"
  const ModelLine: string := "\n\n**优化要求**：\n1. **目标模型**："
  const FrameworkLine: string := " (针对该模型的特性进行优化)\n2. **框架**："
  const ToneLine: string := "\n3. **语气风格**："
  const OutputFormat: string :=
    "\n\n**输出格式**：\n请务必返回一个 JSON 格式的字符串（不要包含 Markdown 代码块标记），包含以下字段：\n- `optimized_prompt`: 优化后的完整提示词内容。\n- `explanation`: 简要说明你做了哪些优化以及为什么（Markdown 格式）。\n- `comparison`: 一个简短的对比说明，指出优化前后的主要区别。\n\n如果无法生成 JSON，请直接输出优化后的提示词，但我更希望是 JSON。\n"
  const AutoFramework: string := "请选择最适合该任务的框架 (如 CO-STAR, CRISPE, ICIO 等)"
  const FallbackExplanation: string := "自动解析失败，直接展示模型输出。"

  /** The framework line: "auto" asks the agent to choose one. */
  function FrameworkText(framework: string): string {
    if framework != "auto" then framework else AutoFramework
  }

  function OptimizeInstruction(original: string, model: string, framework: string, tone: string): string {
    OptimizeOpening + original + ModelLine + model + FrameworkLine + FrameworkText(framework) + ToneLine + tone + OutputFormat
  }

  /** `{"error": "PromptAgent not found."}` */
  const NoAgentError: Json := JObj([("error", JStr("PromptAgent not found."))])

  /** The answer shown as is when no JSON object can be parsed out of it. */
  function Fallback(response: string): Json {
    JObj([("optimized_prompt", JStr(response)), ("explanation", JStr(FallbackExplanation)), ("comparison", JStr("无"))])
  }

  /**
   * The two searches: first on the answer with its newlines turned into
   * spaces, then, leniently, on the answer itself.
   */
  function ExtractSpan(response: string): Option<string> {
    match BraceSpan(ReplaceChar(response, '\n', ' '))
    case Some(span) => Some(span)
    case None => BraceSpan(response)
  }

  /**
   * Turning newlines into spaces moves no brace, so the lenient second
   * search succeeds only where the first already has: the span handed to
   * the parser is always cut from the newline-free text.
   */
  lemma LenientSearchNeverNeeded(response: string)
    ensures ExtractSpan(response) == BraceSpan(ReplaceChar(response, '\n', ' '))
  {
    var flat := ReplaceChar(response, '\n', ' ');
    BraceSpanMatches(flat);
    BraceSpanMatches(response);
    if BraceSpan(response).Some? {
      var i, j :| 0 <= i < j < |response| && response[i] == '{' && response[j] == '}';
      assert flat[i] == '{' && flat[j] == '}';
    }
  }

  /**
   * `optimize_prompt`. Without the prompt engineer agent the answer is the
   * error object. Otherwise the agent is asked once (an error it raises
   * propagates) and the answer is whatever the parser makes of the brace
   * span, or the fallback object carrying the raw answer.
   */
  function OptimizePrompt(agent: Option<Agent>, original: string, model: string, framework: string, tone: string,
                          llm: Llm, parse: Parser): (r: Result<Json>)
    ensures agent.None? ==> r == Success(NoAgentError)
    ensures agent.Some? ==> var reply := Ask(agent.value, OptimizeInstruction(original, model, framework, tone), llm);
                            (r.Failure? <==> reply.Raised?)
                            && (reply.Reply? ==> var span := BraceSpan(ReplaceChar(reply.text, '\n', ' '));
                                                 if span.Some? && parse(span.value).Some? then r == Success(parse(span.value).value)
                                                 else r == Success(Fallback(reply.text)))
  {
    match agent
    case None => Success(NoAgentError)
    case Some(a) =>
      match Ask(a, OptimizeInstruction(original, model, framework, tone), llm)
      case Raised(error) => Failure(error)
      case Reply(response) =>
        LenientSearchNeverNeeded(response);
        match ExtractSpan(response)
        case Some(span) => (if parse(span).Some? then Success(parse(span).value) else Success(Fallback(response)))
        case None => Success(Fallback(response))
  }
}
