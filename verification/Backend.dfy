/** Values exchanged with the model backend (internal/backend/backend.go). */
module Backend {
  /** One decoded JSON argument: only its text form is ever looked at by the harness. */
  datatype Arg = Text(text: string) | NonText

  datatype ToolCall = ToolCall(id: string, name: string, args: map<string, Arg>)

  datatype Message = Message(role: string, content: string, toolCalls: seq<ToolCall>, toolName: string,
      toolCallID: string)

  /** `args["file_path"].(string)`: absent and non-text arguments both read as "". */
  function FilePath(args: map<string, Arg>): string {
    if "file_path" in args && args["file_path"].Text? then args["file_path"].text else ""
  }
}
