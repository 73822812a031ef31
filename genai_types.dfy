/** The agent framework's part type, restricted to the three payload fields
    the adapter reads. Each field may be absent; `text` may be empty. */
module Genai {
  import opened Results

  datatype FileData = FileData(fileUri: string, mimeType: Option<string>)

  datatype Blob = Blob(data: string, mimeType: Option<string>)

  datatype Part = Part(text: Option<string>, fileData: Option<FileData>, inlineData: Option<Blob>)

  /** Python truthiness of `part.text`: present and not empty. */
  predicate HasText(p: Part)
  {
    p.text.Some? && p.text.value != ""
  }

  /** The filter of `convert_genai_parts_to_a2a`: a truthy `text`,
      `file_data` or `inline_data`. */
  predicate HasPayload(p: Part)
  {
    HasText(p) || p.fileData.Some? || p.inlineData.Some?
  }
}
