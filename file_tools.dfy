/**
 * The document readers' front door: the file type is guessed from the MIME
 * type `libmagic` reports, then from the file's extension, and the reader
 * for that type is chosen from a fixed table with the plain-text reader as
 * the fallback. A JSON list is shown as a short preview object. The MIME
 * string is an input (`None` when `libmagic` raises); the readers themselves
 * and `json.dumps` are parameters.
 */
module FileTools {
  import opened Wrappers
  import opened Strings
  import opened JsonValues
  import opened Paths

  /** The type names detection can report besides "unknown". */
  predicate IsFileType(t: string) {
    t == "txt" || t == "pdf" || t == "docx" || t == "xlsx" || t == "md" || t == "json" || t == "csv"
  }

  /** The MIME table of `detect_file_type`. */
  function MimeType(mime: string): (r: Option<string>)
    ensures r.Some? ==> IsFileType(r.value) && r.value != "unknown"
  {
    if mime == "text/plain" then Some("txt")
    else if mime == "text/x-python" then Some("txt")
    else if mime == "application/pdf" then Some("pdf")
    else if mime == "application/vnd.openxmlformats-officedocument.wordprocessingml.document" then Some("docx")
    else if mime == "application/vnd.openxmlformats-officedocument.spreadsheetml.sheet" then Some("xlsx")
    else if mime == "application/vnd.ms-excel" then Some("xlsx")
    else if mime == "text/markdown" then Some("md")
    else if mime == "application/json" then Some("json")
    else if mime == "text/csv" then Some("csv")
    else None
  }

  /** The extension table of `detect_file_type`, looked up with the lower-cased extension. */
  function ExtensionType(ext: string): (r: Option<string>)
    ensures r.Some? ==> IsFileType(r.value) && r.value != "unknown"
  {
    if ext == ".txt" then Some("txt")
    else if ext == ".md" then Some("md")
    else if ext == ".py" then Some("txt")
    else if ext == ".pdf" then Some("pdf")
    else if ext == ".docx" then Some("docx")
    else if ext == ".xlsx" then Some("xlsx")
    else if ext == ".csv" then Some("csv")
    else if ext == ".json" then Some("json")
    else None
  }

  /**
   * `detect_file_type(file_path)` given what `libmagic` reports for the file:
   * the MIME table first, the extension table when the MIME type is not in
   * it, and "unknown" when both miss or `libmagic` raises.
   */
  function DetectFileType(path: string, mime: Option<string>): (r: string)
    ensures IsFileType(r) || r == "unknown"
    ensures r == "unknown" <==>
              mime.None? || (MimeType(mime.value).None? && ExtensionType(Lower(SplitExt(path).1)).None?)
    ensures mime.Some? && MimeType(mime.value).Some? ==> r == MimeType(mime.value).value
  {
    match mime
    case None => "unknown"
    case Some(m) =>
      match MimeType(m)
      case Some(t) => t
      case None => ExtensionType(Lower(SplitExt(path).1)).GetOr("unknown")
  }

  /** Every entry of the MIME table decides the type, whatever the file is called. */
  lemma MimeEntries(path: string)
    ensures DetectFileType(path, Some("text/plain")) == "txt"
    ensures DetectFileType(path, Some("text/x-python")) == "txt"
    ensures DetectFileType(path, Some("application/pdf")) == "pdf"
    ensures DetectFileType(path, Some("application/vnd.openxmlformats-officedocument.wordprocessingml.document")) == "docx"
    ensures DetectFileType(path, Some("application/vnd.openxmlformats-officedocument.spreadsheetml.sheet")) == "xlsx"
    ensures DetectFileType(path, Some("application/vnd.ms-excel")) == "xlsx"
    ensures DetectFileType(path, Some("text/markdown")) == "md"
    ensures DetectFileType(path, Some("application/json")) == "json"
    ensures DetectFileType(path, Some("text/csv")) == "csv"
  {
    assert "text/markdown"[5] != "text/x-python"[5];
  }

  /**
   * A MIME type outside the table hands the decision to the file's
   * extension: `name.ext` is typed by `.ext` lower-cased.
   */
  lemma ExtensionFallback(name: string, ext: string, mime: string)
    requires MimeType(mime).None?
    requires '/' !in name && '/' !in ext && '.' !in ext && |name| > 0 && name[0] != '.'
    ensures DetectFileType(name + "." + ext, Some(mime)) == ExtensionType(Lower("." + ext)).GetOr("unknown")
  {
    SplitExtOfName(name, ext);
  }

  /** A Python source whose MIME type is not in the table is text, in any letter case of `.py`. */
  lemma PythonSourceIsText(name: string, ext: string, mime: string)
    requires MimeType(mime).None? && Lower(ext) == "py"
    requires '/' !in name && '/' !in ext && |name| > 0 && name[0] != '.'
    ensures DetectFileType(name + "." + ext, Some(mime)) == "txt"
  {
    assert '.' !in ext by {
      assert |ext| == 2 && LowerChar(ext[0]) == 'p' && LowerChar(ext[1]) == 'y';
    }
    ExtensionFallback(name, ext, mime);
    var lowered := Lower("." + ext);
    assert lowered[0] == '.' && lowered[1] == Lower(ext)[0] && lowered[2] == Lower(ext)[1];
    assert lowered == ".py";
  }

  /** A file with no extension and a MIME type outside the table is "unknown". */
  lemma NoExtensionUnknown(name: string, mime: string)
    requires MimeType(mime).None? && '/' !in name && '.' !in name && |name| > 0
    ensures DetectFileType(name, Some(mime)) == "unknown"
  {
    assert SplitExt(name).1 == "" by {
      assert LastIndexOf(name, '.') == -1;
    }
    assert Lower("") == "";
  }

  /** The readers `read_file` dispatches to. */
  datatype Reader = TextReader | PdfReader | DocxReader | ExcelReader | JsonReader | CsvReader

  /** The type name each reader is registered under (`md` shares the text reader). */
  function TypeName(reader: Reader): string {
    match reader
    case TextReader => "txt"
    case PdfReader => "pdf"
    case DocxReader => "docx"
    case ExcelReader => "xlsx"
    case JsonReader => "json"
    case CsvReader => "csv"
  }

  /**
   * `readers.get(file_type, read_text_file)`: only the five binary or
   * structured types have readers of their own; every other name, "md" and
   * "unknown" among them, is read as text.
   */
  function ReaderFor(fileType: string): (r: Reader)
    ensures r == TextReader <==> fileType !in {"pdf", "docx", "xlsx", "json", "csv"}
    ensures r != TextReader ==> TypeName(r) == fileType
  {
    if fileType == "pdf" then PdfReader
    else if fileType == "docx" then DocxReader
    else if fileType == "xlsx" then ExcelReader
    else if fileType == "json" then JsonReader
    else if fileType == "csv" then CsvReader
    else TextReader
  }

  /** Each reader is what its own type name dispatches to. */
  lemma ReaderForTypeName(reader: Reader)
    ensures ReaderFor(TypeName(reader)) == reader
  {
    match reader
    case TextReader =>
    case PdfReader =>
    case DocxReader =>
    case ExcelReader =>
    case JsonReader =>
    case CsvReader =>
  }

  /**
   * `read_file(file_path, file_type)`: the given type, or the detected one
   * when none is given, picks the reader, whose result (or exception) is the
   * answer.
   */
  function ReadFile(path: string, fileType: Option<string>, mime: Option<string>,
                    read: (Reader, string) -> Result<string>): (r: Result<string>)
    ensures fileType.None? && mime.None? ==> r == read(TextReader, path)
    ensures fileType.Some? ==> r == read(ReaderFor(fileType.value), path)
  {
    var t := if fileType.Some? then fileType.value else DetectFileType(path, mime);
    read(ReaderFor(t), path)
  }

  /**
   * Detecting first and passing the type in, as the document workflow does,
   * reads the file exactly as leaving the type out does.
   */
  lemma DetectThenRead(path: string, mime: Option<string>, read: (Reader, string) -> Result<string>)
    ensures ReadFile(path, Some(DetectFileType(path, mime)), None, read) == ReadFile(path, None, mime, read)
  {
  }

  /** A file whose type cannot be determined is read as text. */
  lemma UnknownReadAsText(path: string, mime: Option<string>, read: (Reader, string) -> Result<string>)
    requires DetectFileType(path, mime) == "unknown"
    ensures ReadFile(path, None, mime, read) == read(TextReader, path)
  {
  }

  /** How many list items the preview keeps. */
  const PreviewLength: nat := 10

  /**
   * What `read_json_file` renders: a list becomes the object
   * `{"type": "list", "length": n, "preview": first ten items}`; any other
   * value is rendered as it is.
   */
  function JsonPreview(data: Json): (r: Json)
    ensures !data.JArr? ==> r == data
    ensures data.JArr? ==> r.JObj? && Keys(r.fields) == ["type", "length", "preview"]
  {
    match data
    case JArr(items) =>
      var shown := if |items| <= PreviewLength then items else items[..PreviewLength];
      JObj([("type", JStr("list")), ("length", JNum(|items|)), ("preview", JArr(shown))])
    case _ => data
  }

  /**
   * A list's preview is tagged as a list, records the full length, and keeps
   * the first items in order: all of them when there are at most ten,
   * exactly ten otherwise.
   */
  lemma PreviewShape(items: seq<Json>)
    ensures var r := JsonPreview(JArr(items));
            Get(r, "type") == Some(JStr("list")) && Get(r, "length") == Some(JNum(|items|))
            && Get(r, "preview").Some? && Get(r, "preview").value.JArr?
            && var shown := Get(r, "preview").value.items;
               shown <= items && |shown| == (if |items| <= PreviewLength then |items| else PreviewLength)
  {
    var r := JsonPreview(JArr(items));
    var fields := r.fields;
    assert "type"[0] != "preview"[0] && "length"[0] != "preview"[0] && "type"[0] != "length"[0];
    assert fields[..2][..1] == [("type", JStr("list"))];
    assert Lookup(fields[..2], "type") == Lookup(fields[..2][..1], "type");
    assert Lookup(fields, "type") == Lookup(fields[..2], "type");
    assert Lookup(fields, "length") == Lookup(fields[..2], "length");
  }

  /** Rendering a preview again changes nothing: the preview is an object, not a list. */
  lemma PreviewIdempotent(data: Json)
    ensures JsonPreview(JsonPreview(data)) == JsonPreview(data)
  {
    if data.JArr? {
      assert JsonPreview(data).JObj?;
    }
  }

  /**
   * `read_json_file`: the file's text (`None` when opening or decoding it
   * raises) is parsed; a parsed value is rendered through the preview, and
   * any failure falls back to the text reader's result.
   */
  function ReadJsonFile(contents: Option<string>, parse: Parser, dumps: Json -> string,
                        asText: Result<string>): (r: Result<string>)
    ensures contents.None? || parse(contents.value).None? ==> r == asText
    ensures contents.Some? && parse(contents.value).Some? && parse(contents.value).value.JArr? ==>
              r == Success(dumps(JsonPreview(parse(contents.value).value)))
    ensures contents.Some? && parse(contents.value).Some? && !parse(contents.value).value.JArr? ==>
              r == Success(dumps(parse(contents.value).value))
  {
    match contents
    case None => asText
    case Some(text) =>
      match parse(text)
      case None => asText
      case Some(data) => Success(dumps(JsonPreview(data)))
  }
}
