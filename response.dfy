/**
 * The analyst reply and how the batch loop reads it: the non-retryable error code,
 * then "last text wins" / "last sql wins" over the reply's content list.
 */
module ResponseContract {
  import opened Wrappers

  /** The error code after which an item is not retried. */
  const NonRetryableCode := "392708"
  const TextKind := "text"
  const SqlKind := "sql"

  /** One entry of `message.content`; a key the entry lacks is `None`. */
  datatype ContentItem = ContentItem(kind: Option<string>, text: Option<string>, statement: Option<string>)

  /**
   * The value under the reply's "message" key: missing, something that is not a mapping
   * (a string, a number, null: `typeName` is its Python type name), or a mapping whose
   * "content" list may be missing. `rendered` is the value's `str()`.
   */
  datatype Message =
    | Absent
    | Scalar(typeName: string, rendered: string)
    | Mapping(content: Option<seq<ContentItem>>, rendered: string)

  datatype Reply = Reply(errorCode: Option<string>, message: Message)

  /** What one reply means to the retry loop. */
  datatype Parsed =
    | SemanticError(error: string)
    | Malformed(error: string)
    | Answer(interpretation: string, statement: string)

  function TextOf(item: ContentItem): (r: string) {
    item.text.GetOr("")
  }

  function StatementOf(item: ContentItem): (r: string) {
    item.statement.GetOr("")
  }

  /** The text of the last item tagged "text", or "" when there is none. */
  function LastText(items: seq<ContentItem>): (r: string)
  {
    if |items| == 0 then ""
    else if items[|items| - 1].kind == Some(TextKind) then TextOf(items[|items| - 1])
    else LastText(items[..|items| - 1])
  }

  /** The statement of the last item tagged "sql", or "" when there is none. */
  function LastStatement(items: seq<ContentItem>): (r: string)
  {
    if |items| == 0 then ""
    else if items[|items| - 1].kind == Some(SqlKind) then StatementOf(items[|items| - 1])
    else LastStatement(items[..|items| - 1])
  }

  /** `parsed.get('message', 'Unknown')` as an f-string renders it. */
  function MessageText(m: Message): (r: string) {
    match m
    case Absent => "Unknown"
    case Scalar(_, rendered) => rendered
    case Mapping(_, rendered) => rendered
  }

  /** The text of the AttributeError raised by `.get` on a value that is not a mapping. */
  function NoGetError(typeName: string): (r: string) {
    "'" + typeName + "' object has no attribute 'get'"
  }

  /** How the retry loop reads one reply. */
  function Parse(reply: Reply): (p: Parsed)
    ensures p.SemanticError? <==> reply.errorCode == Some(NonRetryableCode)
    ensures p.SemanticError? ==> p.error == "Error 392708: " + MessageText(reply.message)
    ensures p.Malformed? <==> reply.errorCode != Some(NonRetryableCode) && reply.message.Scalar?
    ensures reply.errorCode != Some(NonRetryableCode) && (reply.message.Absent? || (reply.message.Mapping? && reply.message.content.None?))
            ==> p == Answer("", "")
  {
    if reply.errorCode == Some(NonRetryableCode) then
      SemanticError("Error " + NonRetryableCode + ": " + MessageText(reply.message))
    else
      match reply.message
      case Absent => Answer("", "")
      case Scalar(typeName, _) => Malformed(NoGetError(typeName))
      case Mapping(content, _) =>
        var items := content.GetOr([]);
        Answer(LastText(items), LastStatement(items))
  }

  /** The content loop: walk the items in order, overwriting on every "text" or "sql" item. */
  method ScanContent(items: seq<ContentItem>) returns (interpretation: string, statement: string)
    ensures interpretation == LastText(items)
    ensures statement == LastStatement(items)
  {
    interpretation, statement := "", "";
    var i := 0;
    while i < |items|
      invariant 0 <= i <= |items|
      invariant interpretation == LastText(items[..i])
      invariant statement == LastStatement(items[..i])
    {
      assert items[..i + 1][..i] == items[..i];
      if items[i].kind == Some(TextKind) {
        interpretation := TextOf(items[i]);
      } else if items[i].kind == Some(SqlKind) {
        statement := StatementOf(items[i]);
      }
      i := i + 1;
    }
    assert items[..i] == items;
  }

  /** "Last text wins": the result is the text of the text item after which no text item follows. */
  lemma {:induction false} LastTextIsLast(items: seq<ContentItem>, j: nat)
    requires j < |items| && items[j].kind == Some(TextKind)
    requires forall k :: j < k < |items| ==> items[k].kind != Some(TextKind)
    ensures LastText(items) == TextOf(items[j])
    decreases |items|
  {
    if j < |items| - 1 {
      LastTextIsLast(items[..|items| - 1], j);
    }
  }

  /** "Last sql wins", in the same sense. */
  lemma {:induction false} LastStatementIsLast(items: seq<ContentItem>, j: nat)
    requires j < |items| && items[j].kind == Some(SqlKind)
    requires forall k :: j < k < |items| ==> items[k].kind != Some(SqlKind)
    ensures LastStatement(items) == StatementOf(items[j])
    decreases |items|
  {
    if j < |items| - 1 {
      LastStatementIsLast(items[..|items| - 1], j);
    }
  }

  /** Without any "text" item the interpretation is empty, and without any "sql" item so is the statement. */
  lemma {:induction false} AbsentKindGivesEmpty(items: seq<ContentItem>)
    ensures (forall k :: 0 <= k < |items| ==> items[k].kind != Some(TextKind)) ==> LastText(items) == ""
    ensures (forall k :: 0 <= k < |items| ==> items[k].kind != Some(SqlKind)) ==> LastStatement(items) == ""
    decreases |items|
  {
    if |items| > 0 {
      AbsentKindGivesEmpty(items[..|items| - 1]);
    }
  }

  /** An item of any other type, wherever it stands, changes neither result. */
  lemma {:induction false} OtherKindsIgnored(before: seq<ContentItem>, other: ContentItem, after: seq<ContentItem>)
    requires other.kind != Some(TextKind) && other.kind != Some(SqlKind)
    ensures LastText(before + [other] + after) == LastText(before + after)
    ensures LastStatement(before + [other] + after) == LastStatement(before + after)
    decreases |after|
  {
    if |after| == 0 {
      assert (before + [other] + after)[..|before|] == before;
      assert before + after == before;
    } else {
      var shorter := after[..|after| - 1];
      assert (before + [other] + after)[..|before + [other] + after| - 1] == before + [other] + shorter;
      assert (before + after)[..|before + after| - 1] == before + shorter;
      OtherKindsIgnored(before, other, shorter);
    }
  }
}
