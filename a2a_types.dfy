/** The Agent2Agent protocol values this system reads and writes: parts,
    messages, tasks and artifacts, plus the protocol library's
    `get_text_parts` helper. Message ids are not modelled. */
module A2A {
  import opened Results

  /** The file payload of a file part: by reference or inline. `OtherFile`
      stands for any file object of neither class. */
  datatype FileContent =
    | FileWithUri(uri: string, mimeType: Option<string>, name: Option<string>)
    | FileWithBytes(bytes: string, mimeType: Option<string>, name: Option<string>)
    | OtherFile(kind: string)

  /** A protocol part; `DataPart` is the structured-data part kind. */
  datatype Part =
    | TextPart(text: string)
    | FilePart(file: FileContent)
    | DataPart(data: string)

  datatype Role = User | Agent

  datatype Message = Message(role: Role, parts: seq<Part>, contextId: Option<string>, taskId: Option<string>)

  datatype TaskState =
    | Submitted | Working | InputRequired | Completed | Canceled
    | Failed | Rejected | AuthRequired | Unknown

  datatype TaskStatus = TaskStatus(state: TaskState, message: Option<Message>)

  datatype Artifact = Artifact(parts: seq<Part>)

  /** A task; a missing artifact list is the empty sequence. */
  datatype Task = Task(id: string, contextId: string, status: TaskStatus, artifacts: seq<Artifact>)

  /** The texts of the text parts of `parts`, in order (`get_text_parts`). */
  function TextParts(parts: seq<Part>): (texts: seq<string>)
    ensures |texts| <= |parts|
    ensures (forall i :: 0 <= i < |parts| ==> !parts[i].TextPart?) ==> texts == []
    ensures forall t :: t in texts <==> exists i :: 0 <= i < |parts| && parts[i].TextPart? && parts[i].text == t
  {
    if parts == [] then []
    else (if parts[0].TextPart? then [parts[0].text] else []) + TextParts(parts[1..])
  }
}
