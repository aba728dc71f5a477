/**
 * The document processing workflow: read a file, check it is not empty, have
 * the document agent process it, then save the result, stop for a human
 * review, or write an error report. Each node updates the shared state
 * record in place and passes it on; once an error is recorded every later
 * node but the error handler leaves the state alone. File reading, the
 * agent and the metadata write are oracle inputs.
 */
module DocumentGraph {
  import opened Wrappers
  import opened Strings
  import opened Paths
  import opened DocumentTools

  /** The first characters of a file the agent is shown. */
  const ExtractLimit: nat := 2000
  /** The cut `node_process_with_agent` applies again before building the prompt. */
  const PromptLimit: nat := 4000
  /** Results longer than this go to human review. */
  const ReviewLength: nat := 3000

  const ReadFailed: string := "读取文件失败: "
  const EmptyContent: string := "文件内容为空"
  const ProcessFailed: string := "AI处理失败: "
  const SaveFailed: string := "保存结果失败: "
  const NotSubscriptable: string := "'NoneType' object is not subscriptable"
  const NoLength: string := "object of type 'NoneType' has no len()"
  const OutputDirectory: string := "uploads"

  /** The metadata record `node_save_result` stores and writes beside the result. */
  datatype Metadata = Metadata(originalFile: string, operation: string, fileType: Option<string>,
                               outputFile: string, resultLength: nat, reviewed: Option<bool>)

  /** Where each routing function sends the state next. */
  datatype Route = ToErrorHandler | ToHumanReview | ToSaveResult

  /** A result needs review when it is long, when it was generated, or when the model flags low confidence. */
  predicate NeedsReview(response: string, operation: string) {
    |response| > ReviewLength || operation == "generate" || Contains(response, LowConfidenceMarker)
  }

  /** The prompt `node_process_with_agent` sends for an extracted text. */
  function ProcessPrompt(operation: string, extracted: string, instruction: string): string {
    OperationPrompt(operation, Take(extracted, PromptLimit), instruction)
  }

  /**
   * The agent sees the operation's prompt over the first 2000 characters of
   * the file and nothing after them: the 4000 and 8000 cuts further down
   * never shorten an extracted text.
   */
  lemma ProcessPromptOfContent(operation: string, content: string, content': string, instruction: string)
    ensures ProcessPrompt(operation, Take(content, ExtractLimit), instruction)
            == PromptFrom(TemplateFor(operation), Take(content, ExtractLimit), instruction)
    ensures Take(content, ExtractLimit) == Take(content', ExtractLimit) ==>
            ProcessPrompt(operation, Take(content, ExtractLimit), instruction)
            == ProcessPrompt(operation, Take(content', ExtractLimit), instruction)
  {
    var t := Take(content, ExtractLimit);
    assert Take(t, PromptLimit) == t;
    assert Take(t, PromptContentLimit) == t;
  }

  const ResultSuffix: string := "_result.txt"

  /** `{root}_{operation}_result.txt` for the original file name's root. */
  function OutputFilename(originalFilename: string, operation: string): string {
    SplitExt(originalFilename).0 + ("_" + operation + ResultSuffix)
  }

  /**
   * The output name keeps the original name up to its extension and ends
   * with the operation and the result suffix; `report.pdf` summarised
   * becomes `report_summarize_result.txt`.
   */
  lemma OutputFilenameShape(originalFilename: string, operation: string, name: string, ext: string)
    requires '/' !in name && '/' !in ext && '.' !in ext && |name| > 0 && name[0] != '.'
    ensures var r := OutputFilename(originalFilename, operation);
            StartsWith(r, SplitExt(originalFilename).0) && EndsWith(r, "_" + operation + ResultSuffix)
    ensures OutputFilename(name + "." + ext, operation) == name + "_" + operation + ResultSuffix
  {
    var root := SplitExt(originalFilename).0;
    var tail := "_" + operation + ResultSuffix;
    assert (root + tail)[..|root|] == root;
    assert (root + tail)[|root|..] == tail;
    SplitExtOfName(name, ext);
  }

  /** The error report's path: `uploads/{root}_error.txt`. */
  function ErrorPath(originalFilename: string): string {
    JoinPath(OutputDirectory, SplitExt(originalFilename).0 + "_error.txt")
  }

  const ReportOpening: string := "\n处理失败报告\n================\n错误: "
  const ReportFileLine: string := "\n文件名: "
  const ReportOperationLine: string := "\n操作: "
  const ReportAdvice: string :=
    "\n\n建议操作:\n1. 检查文件是否存在且可读\n2. 确认文件格式受支持\n3. 检查 OpenAI API 密钥是否配置正确\n4. 查看日志获取详细信息\n        "

  /** The failure report `node_error_handler` saves. */
  function ErrorReport(error: string, originalFilename: string, operation: string): string {
    ReportOpening + error + ReportFileLine + originalFilename + ReportOperationLine + operation + ReportAdvice
  }

  /** The report names the error, then the file, then the operation. */
  lemma ErrorReportNames(error: string, originalFilename: string, operation: string)
    ensures var r := ErrorReport(error, originalFilename, operation);
            StartsWith(r, ReportOpening + error + ReportFileLine + originalFilename)
            && EndsWith(r, ReportOperationLine + operation + ReportAdvice)
  {
    var r := ErrorReport(error, originalFilename, operation);
    assert r == (ReportOpening + error + ReportFileLine + originalFilename) + (ReportOperationLine + operation + ReportAdvice);
  }

  predicate Blank(o: Option<string>) {
    o.None? || o.value == ""
  }

  /** The workflow state; the four inputs never change after the start. */
  class DocumentState {
    const filePath: string
    const originalFilename: string
    const operation: string
    const instruction: string
    var fileType: Option<string>
    var content: Option<string>
    var extractedText: Option<string>
    var result: Option<string>
    var needsReview: bool
    var reviewApproved: Option<bool>
    var error: Option<string>
    var metadata: Option<Metadata>

    /** `process_document`'s initial state. */
    constructor(filePath: string, originalFilename: string, operation: string, instruction: string)
      ensures this.filePath == filePath && this.originalFilename == originalFilename
      ensures this.operation == operation && this.instruction == instruction
      ensures fileType == None && content == None && extractedText == None && result == None
      ensures !needsReview && reviewApproved == None && error == None && metadata == None
    {
      this.filePath := filePath;
      this.originalFilename := originalFilename;
      this.operation := operation;
      this.instruction := instruction;
      fileType := None;
      content := None;
      extractedText := None;
      result := None;
      needsReview := false;
      reviewApproved := None;
      error := None;
      metadata := None;
    }

    /**
     * `node_read_file`: the detected type is recorded; a successful read
     * stores the content and its first 2000 characters, a failed one the
     * error. This node runs whatever error was set before.
     */
    method ReadFile(detected: string, read: Result<string>)
      modifies this
      ensures fileType == Some(detected)
      ensures read.Success? ==> content == Some(read.value) && extractedText == Some(Take(read.value, ExtractLimit))
                                && error == old(error)
      ensures read.Failure? ==> content == old(content) && extractedText == old(extractedText)
                                && error == Some(ReadFailed + read.error)
      ensures result == old(result) && needsReview == old(needsReview) && reviewApproved == old(reviewApproved)
      ensures metadata == old(metadata)
    {
      fileType := Some(detected);
      match read
      case Success(text) =>
        content := Some(text);
        extractedText := Some(Take(text, ExtractLimit));
      case Failure(e) =>
        error := Some(ReadFailed + e);
    }

    /** `node_validate_file`: empty or missing content is an error, unless one is already recorded. */
    method ValidateFile()
      modifies this
      ensures error == if old(error).None? && Blank(content) then Some(EmptyContent) else old(error)
      ensures fileType == old(fileType) && content == old(content) && extractedText == old(extractedText)
      ensures result == old(result) && needsReview == old(needsReview) && reviewApproved == old(reviewApproved)
      ensures metadata == old(metadata)
    {
      if error.Some? {
        return;
      }
      if Blank(content) {
        error := Some(EmptyContent);
      }
    }

    /**
     * `node_process_with_agent`: the agent's answer to the operation's
     * prompt becomes the result and decides `needs_review`; a failure of
     * the agent, or a missing extracted text, is recorded as the error.
     */
    method ProcessWithAgent(agent: string -> Result<string>)
      modifies this
      ensures old(error).Some? ==> unchanged(this)
      ensures old(error).None? && extractedText.None? ==>
                error == Some(ProcessFailed + NotSubscriptable) && result == old(result) && needsReview == old(needsReview)
      ensures old(error).None? && extractedText.Some? ==>
                var reply := agent(ProcessPrompt(operation, extractedText.value, instruction));
                (reply.Failure? ==> error == Some(ProcessFailed + reply.error) && result == old(result) && needsReview == old(needsReview))
                && (reply.Success? ==> error == None && result == Some(reply.value) && needsReview == NeedsReview(reply.value, operation))
      ensures fileType == old(fileType) && content == old(content) && extractedText == old(extractedText)
      ensures reviewApproved == old(reviewApproved) && metadata == old(metadata)
    {
      if error.Some? {
        return;
      }
      if extractedText.None? {
        error := Some(ProcessFailed + NotSubscriptable);
        return;
      }
      var reply := agent(ProcessPrompt(operation, extractedText.value, instruction));
      match reply
      case Failure(e) =>
        error := Some(ProcessFailed + e);
      case Success(response) =>
        result := Some(response);
        needsReview := NeedsReview(response, operation);
    }

    /**
     * `node_human_review`: only reports; with no result to preview its
     * slice raises out of the workflow.
     */
    method HumanReview() returns (raised: bool)
      ensures raised <==> error.None? && result.None?
    {
      raised := error.None? && result.None?;
    }

    /** `should_review`: errors first, then review, else save. */
    function ShouldReview(): (r: Route)
      reads this
      ensures r == ToErrorHandler <==> error.Some?
      ensures r == ToHumanReview <==> error.None? && needsReview
    {
      if error.Some? then ToErrorHandler
      else if needsReview then ToHumanReview
      else ToSaveResult
    }

    /**
     * `should_continue_after_review`: only an approved review goes on to
     * saving; anything else goes to the error handler. The router's write of
     * the rejection into the state is discarded by the graph, so the state
     * is left as it was.
     */
    function ContinueAfterReview(): (r: Route)
      reads this
      ensures r != ToHumanReview
      ensures r == ToSaveResult <==> reviewApproved == Some(true)
    {
      if reviewApproved == Some(true) then ToSaveResult else ToErrorHandler
    }

    /**
     * `node_save_result`: the metadata names the output file and records
     * the result's length and the review flag as it stands; a missing
     * result or a failed metadata write is recorded as the error.
     */
    method SaveResult(metadataWrite: Option<string>)
      modifies this
      ensures old(error).Some? ==> unchanged(this)
      ensures old(error).None? && result.None? ==> error == Some(SaveFailed + NoLength) && metadata == old(metadata)
      ensures old(error).None? && result.Some? && metadataWrite.Some? ==>
                error == Some(SaveFailed + metadataWrite.value) && metadata == old(metadata)
      ensures old(error).None? && result.Some? && metadataWrite.None? ==>
                error == None
                && metadata == Some(Metadata(originalFilename, operation, fileType,
                                             OutputFilename(originalFilename, operation), |result.value|, reviewApproved))
      ensures fileType == old(fileType) && content == old(content) && extractedText == old(extractedText)
      ensures result == old(result) && needsReview == old(needsReview) && reviewApproved == old(reviewApproved)
    {
      if error.Some? {
        return;
      }
      if result.None? {
        error := Some(SaveFailed + NoLength);
        return;
      }
      var outputFilename := OutputFilename(originalFilename, operation);
      if metadataWrite.Some? {
        error := Some(SaveFailed + metadataWrite.value);
        return;
      }
      metadata := Some(Metadata(originalFilename, operation, fileType, outputFilename, |result.value|, reviewApproved));
    }

    /** `node_error_handler`: with an error recorded, the failure report and the path it is saved to. */
    method ErrorHandler() returns (report: Option<(string, string)>)
      ensures error.None? ==> report == None
      ensures error.Some? ==> report == Some((ErrorPath(originalFilename), ErrorReport(error.value, originalFilename, operation)))
    {
      if error.None? {
        return None;
      }
      report := Some((ErrorPath(originalFilename), ErrorReport(error.value, originalFilename, operation)));
    }

    /**
     * The graph's fixed edges read → validate → process from the initial
     * state: the read outcome decides the first error, and without an error
     * there is a result; only a processed result can need review.
     */
    method Prepare(detected: string, read: Result<string>, agent: string -> Result<string>)
      requires error.None? && !needsReview && reviewApproved.None? && metadata.None?
      modifies this
      ensures fileType == Some(detected)
      ensures read.Failure? ==> error == Some(ReadFailed + read.error)
      ensures read.Success? && read.value == "" ==> error == Some(EmptyContent)
      ensures error.None? ==> result.Some?
      ensures needsReview ==> error.None?
      ensures reviewApproved.None? && metadata.None?
      ensures error.Some? ==> result == old(result) && !needsReview
      ensures read.Success? && read.value != "" ==>
                var reply := agent(ProcessPrompt(operation, Take(read.value, ExtractLimit), instruction));
                (reply.Success? ==> error.None? && result == Some(reply.value) && needsReview == NeedsReview(reply.value, operation))
                && (reply.Failure? ==> error == Some(ProcessFailed + reply.error))
    {
      ReadFile(detected, read);
      ValidateFile();
      ProcessWithAgent(agent);
    }

    /**
     * The conditional edges after processing, with the review flag unset:
     * an error goes to the error handler; a result needing review goes on
     * to the error handler too, but with no error recorded, so it ends with
     * neither a report nor metadata; any other result is saved.
     */
    method Conclude(metadataWrite: Option<string>) returns (report: Option<(string, string)>)
      requires error.None? ==> result.Some?
      requires needsReview ==> error.None?
      requires reviewApproved.None? && metadata.None?
      modifies this
      ensures fileType == old(fileType) && result == old(result) && needsReview == old(needsReview)
      ensures old(error).Some? ==> error == old(error)
      ensures needsReview ==> error.None? && metadata.None? && report.None?
      ensures error.None? && !needsReview <==> metadata.Some?
      ensures metadata.Some? ==>
                result.Some? && !needsReview
                && metadata.value == Metadata(originalFilename, operation, fileType,
                                              OutputFilename(originalFilename, operation), |result.value|, None)
      ensures report.Some? ==> error.Some?
                               && report.value == (ErrorPath(originalFilename), ErrorReport(error.value, originalFilename, operation))
      ensures error.Some? && report.None? ==> metadataWrite.Some? && error == Some(SaveFailed + metadataWrite.value)
    {
      report := None;
      match ShouldReview()
      case ToErrorHandler =>
        report := ErrorHandler();
      case ToHumanReview =>
        var raised := HumanReview();
        assert !raised;
        assert ContinueAfterReview() == ToErrorHandler;
        report := ErrorHandler();
      case ToSaveResult =>
        SaveResult(metadataWrite);
    }
  }

  /**
   * `process_document`: the initial state, then read, validate and process,
   * and on to the error handler, the human review or saving. The review
   * flag starts unset and no node sets it, so a result that needs review
   * is never saved: it reaches the error handler with no error recorded and
   * ends with neither metadata nor a report. Otherwise a run ends without
   * an error exactly when the metadata has been stored, and every error but
   * a failed metadata write produces the failure report.
   */
  method ProcessDocument(filePath: string, operation: string, instruction: string, originalFilename: Option<string>,
                         detected: string, read: Result<string>, agent: string -> Result<string>,
                         metadataWrite: Option<string>)
    returns (state: DocumentState, report: Option<(string, string)>)
    ensures fresh(state)
    ensures state.originalFilename == if originalFilename.Some? then originalFilename.value else Basename(filePath)
    ensures state.fileType == Some(detected)
    ensures read.Failure? ==> state.error == Some(ReadFailed + read.error)
    ensures read.Success? && read.value == "" ==> state.error == Some(EmptyContent)
    ensures state.needsReview ==> state.error.None? && state.metadata.None? && report.None?
    ensures state.error.None? && !state.needsReview <==> state.metadata.Some?
    ensures state.metadata.Some? ==>
              state.result.Some? && !state.needsReview
              && state.metadata.value == Metadata(state.originalFilename, operation, Some(detected),
                                                  OutputFilename(state.originalFilename, operation), |state.result.value|, None)
    ensures report.Some? ==> state.error.Some?
                             && report.value == (ErrorPath(state.originalFilename),
                                                 ErrorReport(state.error.value, state.originalFilename, operation))
    ensures state.error.Some? && report.None? ==>
              metadataWrite.Some? && state.error == Some(SaveFailed + metadataWrite.value)
    ensures read.Success? && read.value != "" ==>
              var reply := agent(ProcessPrompt(operation, Take(read.value, ExtractLimit), instruction));
              (reply.Success? ==> state.result == Some(reply.value) && state.needsReview == NeedsReview(reply.value, operation))
              && (reply.Failure? ==> state.error == Some(ProcessFailed + reply.error) && state.result.None?)
  {
    var name := if originalFilename.Some? then originalFilename.value else Basename(filePath);
    state := new DocumentState(filePath, name, operation, instruction);
    state.Prepare(detected, read, agent);
    report := state.Conclude(metadataWrite);
  }
}
