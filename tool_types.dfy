// The tool-call result and error types of `agent_core::tools`, shared by
// the built-in tools and the MCP executor. That crate is not part of this
// model; only the variants the modelled code constructs appear here.
module ToolTypes {
  import opened Wrappers
  import JsonValue

  datatype ToolError =
    | NotFound(message: string)
    | InvalidArguments(message: string)
    | Execution(message: string)

  datatype ToolResult = ToolResult(success: bool, result: string, displayPreference: Option<string>)

  /** The call an LLM asks for: a tool name and its arguments as JSON text. */
  datatype FunctionCall = FunctionCall(name: string, arguments: string)

  datatype ToolCall = ToolCall(id: string, toolType: string, fn: FunctionCall)

  /** A tool as announced to the LLM: `{"type": "function", "function": {...}}`. */
  datatype FunctionSchema = FunctionSchema(name: string, description: string, parameters: JsonValue.Json)

  datatype ToolSchema = ToolSchema(schemaType: string, fn: FunctionSchema)
}
