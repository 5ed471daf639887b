/** The values that flow between the services: a task file's frontmatter and
    body, and the JavaScript rules for absent values (`undefined` is falsy
    and renders as "undefined" inside a template literal). */
module TaskModel {
  import opened Wrappers
  import opened Text

  /** A frontmatter or configuration string is truthy when present and non-empty. */
  predicate Truthy(v: Option<string>)
  {
    v.Some? && v.value != ""
  }

  /** `a || b` on optional strings. */
  function Or(a: Option<string>, b: Option<string>): (r: Option<string>)
    ensures Truthy(a) ==> r == a
    ensures !Truthy(a) ==> r == b
  {
    if Truthy(a) then a else b
  }

  /** `${v}` in a template literal. */
  function Render(v: Option<string>): (r: string)
    ensures v.Some? ==> r == v.value
    ensures v.None? ==> r == "undefined"
  {
    match v
    case Some(s) => s
    case None => "undefined"
  }

  /** The `affected_files` key: absent, a YAML list, or a single string. */
  datatype Files = NoFiles | FileList(items: seq<string>) | FileText(text: string)

  /** A list is truthy even when empty; a string only when non-empty. */
  predicate FilesTruthy(f: Files)
  {
    f.FileList? || (f.FileText? && f.text != "")
  }

  /** `${affected_files}`: a list renders as its items joined by ",". */
  function RenderFiles(f: Files): (r: string)
    ensures f.FileList? ==> r == Join(f.items, ",")
    ensures f.FileText? ==> r == f.text
    ensures f.NoFiles? ==> r == "undefined"
  {
    match f
    case NoFiles => "undefined"
    case FileList(items) => Join(items, ",")
    case FileText(text) => text
  }

  /** The frontmatter keys the services read:
      task_id, validation_cmd, affected_files, provider, model, persona. */
  datatype TaskData = TaskData(
    taskId: Option<string>,
    validationCmd: Option<string>,
    affectedFiles: Files,
    provider: Option<string>,
    model: Option<string>,
    persona: Option<string>)

  /** What `gray-matter` returns: the frontmatter and the body after it. */
  datatype Parsed = Parsed(data: TaskData, content: string)

  /** A loaded task: `{ data, content, filePath, fileName, rawContent }`. */
  datatype Task = Task(
    data: TaskData,
    content: string,
    filePath: string,
    fileName: string,
    rawContent: string)
}
