/** The `clipboard_operations` tool handler registered by the entry flow.

    The operating-system clipboard is an abstract cell holding one string:
    copying replaces its content and pasting reads it back. The handler is a
    total function of its arguments and the current cell; it returns the
    result record that is sent back to the remote run, together with the
    cell's new content. */
module ClipboardTool {

  import opened Wrappers

  /** The parsed arguments of a tool call, `{operation, text?}`. Either
      field may be absent from what the remote service sent. */
  datatype ClipArgs = ClipArgs(operation: Option<string>, text: Option<string>)

  /** The result record `{success, pastedText?, error?}`. */
  datatype ToolResult = ToolResult(success: bool, pastedText: Option<string>, error: Option<string>)

  /** What one invocation of the handler produces: its result record and the
      clipboard content afterwards. */
  datatype Invocation = Invocation(result: ToolResult, clipboard: string)

  const CopyOp: string := "copy"
  const PasteOp: string := "paste"
  const InvalidMessage: string := "Invalid operation or missing text for copy"

  /** JavaScript truthiness of an optional string: present and non-empty. */
  predicate Truthy(text: Option<string>) {
    text.Some? && text.value != ""
  }

  /** The three result records the handler can return. */
  const Copied: ToolResult := ToolResult(true, None, None)
  function Pasted(text: string): ToolResult { ToolResult(true, Some(text), None) }
  const Rejected: ToolResult := ToolResult(false, None, Some(InvalidMessage))

  predicate IsCopy(args: ClipArgs) {
    args.operation == Some(CopyOp) && Truthy(args.text)
  }

  predicate IsPaste(args: ClipArgs) {
    args.operation == Some(PasteOp)
  }

  /** The handler. A copy with truthy text stores the text and reports
      success; a paste reports the current content and leaves it alone;
      everything else, including a copy whose text is missing or empty, is
      rejected with the fixed error message and leaves the cell alone. */
  function Handle(args: ClipArgs, clip: string): (r: Invocation)
    ensures r.result.success <==> IsCopy(args) || IsPaste(args)
    ensures r.result.success ==> r.result.error.None?
    ensures !r.result.success ==> r.result == Rejected
    ensures r.result.pastedText.Some? <==> IsPaste(args)
    ensures r.result.pastedText.Some? ==> r.result.pastedText.value == clip
    ensures r.clipboard != clip ==> IsCopy(args)
    ensures IsCopy(args) ==> r.clipboard == args.text.value
  {
    if args.operation == Some(CopyOp) && Truthy(args.text) then
      Invocation(Copied, args.text.value)
    else if args.operation == Some(PasteOp) then
      Invocation(Pasted(clip), clip)
    else
      Invocation(Rejected, clip)
  }

  /** In the idealised clipboard, a paste after a successful copy returns
      exactly the copied text. */
  lemma CopyThenPaste(text: string, clip: string)
    requires text != ""
    ensures var c := Handle(ClipArgs(Some(CopyOp), Some(text)), clip);
            c.result == Copied &&
            Handle(ClipArgs(Some(PasteOp), None), c.clipboard) == Invocation(Pasted(text), text)
  {
  }

  /** Paste is idempotent: it never changes the cell, so pasting twice gives
      the same record twice. */
  lemma PasteIdempotent(args: ClipArgs, clip: string)
    requires IsPaste(args)
    ensures Handle(args, Handle(args, clip).clipboard) == Handle(args, clip)
  {
  }

  /** A copy whose text is missing or empty is rejected, not treated as a
      copy of the empty string. */
  lemma CopyNeedsText(text: Option<string>, clip: string)
    requires !Truthy(text)
    ensures Handle(ClipArgs(Some(CopyOp), text), clip) == Invocation(Rejected, clip)
  {
  }
}
