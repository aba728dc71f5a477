/**
 * The compliance marketing workflow: the content creator drafts a text, the
 * compliance officer reviews it, and the draft/review pair repeats until the
 * review approves or three drafts have been written. The graph runtime is
 * replaced by the loop it drives; the two agents answer through the model
 * oracle `llm`.
 */
module ComplianceGraph {
  import opened Wrappers
  import opened Strings
  import opened AgentCore

  /** `status`: drafting | reviewing | approved | rejected (the last is never set). */
  datatype Status = Drafting | Reviewing | Approved | Rejected

  /** The two exits of the review node. */
  datatype Next = Draft | End

  /** The most drafts the loop writes before it gives up. */
  const MaxIterations: int := 3

  /** The approval mark the officer is asked to reply with. */
  const ApprovalMark: string := "✅ 通过"

  /** How an optional text prints inside an f-string: `None` prints as "None". */
  function OptText(o: Option<string>): (r: string)
    ensures o.Some? ==> r == o.value
  {
    match o
    case Some(s) => s
    case None => "None"
  }

  const FirstDraftOpening: string := "请为主题 '"
  const FirstDraftClosing: string := "' 撰写一份吸引人的营销文案。"
  const RevisionOpening: string := "请根据合规官的以下反馈修改文案：\n\n"
  const RevisionTopic: string := "\n\n原主题："

  /** The drafting prompt: the topic alone for the first draft, the latest feedback and the topic afterwards. */
  function DraftPrompt(iterationCount: int, feedback: Option<string>, topic: string): string {
    if iterationCount == 0 then FirstDraftOpening + topic + FirstDraftClosing
    else RevisionOpening + OptText(feedback) + RevisionTopic + topic
  }

  /**
   * The first prompt names the topic and does not depend on any feedback;
   * every later one carries the feedback text and then the topic.
   */
  lemma DraftPromptShape(iterationCount: int, feedback: Option<string>, feedback': Option<string>, topic: string)
    ensures iterationCount == 0 ==> DraftPrompt(iterationCount, feedback, topic) == DraftPrompt(iterationCount, feedback', topic)
    ensures iterationCount == 0 ==> Contains(DraftPrompt(iterationCount, feedback, topic), topic)
    ensures iterationCount != 0 ==> Contains(DraftPrompt(iterationCount, feedback, topic), OptText(feedback))
    ensures iterationCount != 0 ==> EndsWith(DraftPrompt(iterationCount, feedback, topic), RevisionTopic + topic)
  {
    var p := DraftPrompt(iterationCount, feedback, topic);
    if iterationCount == 0 {
      ContainsAt(p, topic, |FirstDraftOpening|);
    } else {
      ContainsAt(p, OptText(feedback), |RevisionOpening|);
    }
  }

  const ReviewOpening: string := "请审核以下营销文案的合规性：\n\n"
  const ReviewInstructions: string :=
    "\n\n请检查是否包含违规承诺（如保本、稳赚）、风险揭示是否充分。\n如果通过，请回复\"✅ 通过\"。\n如果不通过，请列出具体修改建议。"

  /** The review prompt: the draft between the opening line and the instructions. */
  function ReviewPrompt(content: Option<string>): string {
    ReviewOpening + OptText(content) + ReviewInstructions
  }

  /** The workflow state. */
  class ComplianceState {
    var topic: string
    var content: Option<string>
    var reviewResult: Option<string>
    var feedback: Option<string>
    var status: Status
    var iterationCount: int

    /** `run_compliance_flow`'s initial state. */
    constructor(topic: string)
      ensures this.topic == topic && content == None && reviewResult == None && feedback == None
      ensures status == Drafting && iterationCount == 0
    {
      this.topic := topic;
      content := None;
      reviewResult := None;
      feedback := None;
      status := Drafting;
      iterationCount := 0;
    }

    /**
     * `node_draft_content`: the creator's answer becomes the content, the
     * status goes to reviewing and the count goes up by exactly one. A model
     * error propagates before any field is written.
     */
    method DraftContent(llm: Llm) returns (raised: Option<string>)
      modifies this
      ensures var reply := Ask(ContentCreator, DraftPrompt(old(iterationCount), old(feedback), old(topic)), llm);
              if reply.Raised? then raised == Some(reply.error) && unchanged(this)
              else raised == None && content == Some(reply.text) && status == Reviewing
                   && iterationCount == old(iterationCount) + 1
                   && topic == old(topic) && reviewResult == old(reviewResult) && feedback == old(feedback)
    {
      var reply := Ask(ContentCreator, DraftPrompt(iterationCount, feedback, topic), llm);
      if reply.Raised? {
        return Some(reply.error);
      }
      content := Some(reply.text);
      status := Reviewing;
      iterationCount := iterationCount + 1;
      raised := None;
    }

    /**
     * `node_compliance_review`: the officer's answer is always kept as the
     * review result; it approves exactly when it holds the approval mark,
     * and otherwise becomes the feedback for the next draft.
     */
    method ComplianceReview(llm: Llm) returns (raised: Option<string>)
      modifies this
      ensures var reply := Ask(Compliance, ReviewPrompt(old(content)), llm);
              if reply.Raised? then raised == Some(reply.error) && unchanged(this)
              else raised == None && reviewResult == Some(reply.text)
                   && (Contains(reply.text, ApprovalMark) ==> status == Approved && feedback == old(feedback))
                   && (!Contains(reply.text, ApprovalMark) ==> status == Drafting && feedback == Some(reply.text))
                   && topic == old(topic) && content == old(content) && iterationCount == old(iterationCount)
    {
      var reply := Ask(Compliance, ReviewPrompt(content), llm);
      if reply.Raised? {
        return Some(reply.error);
      }
      reviewResult := Some(reply.text);
      if Contains(reply.text, ApprovalMark) {
        status := Approved;
      } else {
        status := Drafting;
        feedback := Some(reply.text);
      }
      raised := None;
    }

    /** `should_continue`: the loop ends once approved or after the third draft. */
    function ShouldContinue(): (r: Next)
      reads this
      ensures r == End <==> status == Approved || iterationCount >= MaxIterations
    {
      if status == Approved then End
      else if iterationCount >= MaxIterations then End
      else Draft
    }

    /**
     * After a review: the review result is set; an approved status means the
     * result holds the approval mark, and any other status is drafting with
     * the result as the feedback.
     */
    predicate Reviewed()
      reads this
    {
      reviewResult.Some?
      && (status == Approved ==> Contains(reviewResult.value, ApprovalMark))
      && (status != Approved ==> status == Drafting && !Contains(reviewResult.value, ApprovalMark) && feedback == reviewResult)
    }

    /** One pass through the graph's two nodes: draft, then review. */
    method Round(llm: Llm) returns (raised: Option<string>)
      modifies this
      ensures topic == old(topic)
      ensures old(iterationCount) <= iterationCount <= old(iterationCount) + 1
      ensures raised.None? ==> iterationCount == old(iterationCount) + 1 && Reviewed()
    {
      raised := DraftContent(llm);
      if raised.None? {
        raised := ComplianceReview(llm);
      }
    }

    /**
     * The compiled graph: draft, review, and back to draft while
     * `should_continue` says so. Without a model error it ends approved by
     * the last review, or unapproved with that review as feedback once the
     * count reaches three; each round adds exactly one to the count.
     */
    method Run(llm: Llm) returns (raised: Option<string>)
      modifies this
      ensures topic == old(topic)
      ensures iterationCount >= old(iterationCount)
      ensures raised.None? ==> iterationCount > old(iterationCount)
      ensures raised.None? ==> iterationCount <= MaxIterations || iterationCount == old(iterationCount) + 1
      ensures raised.None? ==> Reviewed() && (status == Approved || iterationCount >= MaxIterations)
    {
      raised := Round(llm);
      ghost var first := old(iterationCount) + 1;
      while raised.None? && ShouldContinue() == Draft
        invariant topic == old(topic)
        invariant old(iterationCount) <= iterationCount
        invariant raised.None? ==> first <= iterationCount && Reviewed()
        invariant raised.None? ==> iterationCount <= MaxIterations || iterationCount == first
        decreases MaxIterations - iterationCount, raised.None?
      {
        raised := Round(llm);
      }
    }
  }

  /**
   * `run_compliance_flow(topic)`: from the initial state the flow writes one
   * to three drafts and ends either approved, or unapproved after exactly
   * three drafts.
   */
  method RunComplianceFlow(topic: string, llm: Llm) returns (state: ComplianceState, raised: Option<string>)
    ensures fresh(state) && state.topic == topic
    ensures raised.None? ==> 1 <= state.iterationCount <= MaxIterations
    ensures raised.None? ==> state.status == Approved || (state.status == Drafting && state.iterationCount == MaxIterations)
    ensures raised.None? ==> state.Reviewed()
  {
    state := new ComplianceState(topic);
    raised := state.Run(llm);
  }
}
