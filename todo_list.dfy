// The `create_todo_list` tool (crates/agent-tools/src/tools/create_todo_list.rs):
// building a todo list from the tool-call arguments, and rendering it as
// the text the tool returns. The clock is an input.
module TodoList {
  import opened Wrappers
  import opened Strings
  import opened JsonValue
  import opened ToolTypes
  import SeqUtil

  datatype TodoStatus = Pending | InProgress | Completed | Blocked

  datatype TodoItem = TodoItem(
    id: string, description: string, status: TodoStatus, dependsOn: seq<string>, notes: string)

  datatype TodoList = TodoList(
    sessionId: string, title: string, items: seq<TodoItem>, createdAt: int, updatedAt: int)

  /**
   * One element of `items`: it needs a string `id` and a string
   * `description`; `depends_on` keeps its string entries and is empty when
   * absent or not an array. A new item is pending and has no notes.
   */
  function ParseItem(v: Json): (r: Result<TodoItem, ToolError>)
    ensures GetStr(v, "id").None? ==> r == Err(InvalidArguments("Item missing 'id'"))
    ensures GetStr(v, "id").Some? && GetStr(v, "description").None? ==>
              r == Err(InvalidArguments("Item missing 'description'"))
    ensures r.Ok? <==> GetStr(v, "id").Some? && GetStr(v, "description").Some?
    ensures r.Ok? ==> && r.value.id == GetStr(v, "id").value
                      && r.value.description == GetStr(v, "description").value
                      && r.value.status == Pending
                      && r.value.notes == []
    ensures r.Ok? && GetArr(v, "depends_on").None? ==> r.value.dependsOn == []
    ensures r.Ok? && GetArr(v, "depends_on").Some? ==>
              forall d :: d in r.value.dependsOn ==> Str(d) in GetArr(v, "depends_on").value
    ensures r.Ok? && GetArr(v, "depends_on").Some? ==>
              var deps := GetArr(v, "depends_on").value;
              (forall i :: 0 <= i < |deps| ==> deps[i].Str?) ==>
                |r.value.dependsOn| == |deps| && forall i :: 0 <= i < |deps| ==> Str(r.value.dependsOn[i]) == deps[i]
  {
    match GetStr(v, "id")
    case None => Err(InvalidArguments("Item missing 'id'"))
    case Some(id) =>
      match GetStr(v, "description")
      case None => Err(InvalidArguments("Item missing 'description'"))
      case Some(description) =>
        var dependsOn := match GetArr(v, "depends_on") case Some(a) => SeqUtil.FilterMap(a, AsStr) case None => [];
        Ok(TodoItem(id, description, Pending, dependsOn, ""))
  }

  /**
   * `todo_list_from_args`: a missing title or item array is rejected, and
   * so is the list at its first malformed item; otherwise there is one
   * item per element of `items`, in order. The clock is read twice, once
   * for `created_at` and once for `updated_at`.
   */
  method TodoListFromArgs(args: Json, sessionId: string, createdAt: int, updatedAt: int) returns (r: Result<TodoList, ToolError>)
    ensures GetStr(args, "title").None? ==> r == Err(InvalidArguments("Missing 'title' parameter"))
    ensures GetStr(args, "title").Some? && GetArr(args, "items").None? ==>
              r == Err(InvalidArguments("Missing 'items' parameter"))
    ensures r.Ok? ==> GetStr(args, "title").Some? && GetArr(args, "items").Some?
    ensures r.Ok? ==> var elems := GetArr(args, "items").value;
              && r.value.sessionId == sessionId
              && r.value.title == GetStr(args, "title").value
              && r.value.createdAt == createdAt && r.value.updatedAt == updatedAt
              && |r.value.items| == |elems|
              && forall i :: 0 <= i < |elems| ==> ParseItem(elems[i]) == Ok(r.value.items[i])
    ensures GetStr(args, "title").Some? && GetArr(args, "items").Some? && r.Err? ==>
              var elems := GetArr(args, "items").value;
              exists i :: 0 <= i < |elems| && ParseItem(elems[i]) == Err(r.error)
                          && forall j :: 0 <= j < i ==> ParseItem(elems[j]).Ok?
  {
    var title := GetStr(args, "title");
    if title.None? {
      return Err(InvalidArguments("Missing 'title' parameter"));
    }
    var elems := GetArr(args, "items");
    if elems.None? {
      return Err(InvalidArguments("Missing 'items' parameter"));
    }
    var arr := elems.value;
    var items: seq<TodoItem> := [];
    var i := 0;
    while i < |arr|
      invariant 0 <= i <= |arr|
      invariant |items| == i
      invariant forall j :: 0 <= j < i ==> ParseItem(arr[j]) == Ok(items[j])
    {
      var item := ParseItem(arr[i]);
      if item.Err? {
        return Err(item.error);
      }
      items := items + [item.value];
      i := i + 1;
    }
    r := Ok(TodoList(sessionId, title.value, items, createdAt, updatedAt));
  }

  /** The checkbox shown for a status. */
  function StatusIcon(s: TodoStatus): (icon: string)
    ensures |icon| == 3 && icon[0] == '[' && icon[2] == ']'
  {
    match s
    case Pending => "[ ]"
    case InProgress => "[/]"
    case Completed => "[x]"
    case Blocked => "[!]"
  }

  /** Each status has its own icon. */
  lemma StatusIconInjective(a: TodoStatus, b: TodoStatus)
    ensures StatusIcon(a) == StatusIcon(b) <==> a == b
  {
    if a != b {
      assert StatusIcon(a)[1] != StatusIcon(b)[1];
    }
  }

  /** `"{icon} {id}: {description}\n"` */
  function Headline(item: TodoItem): string
  {
    StatusIcon(item.status) + " " + item.id + ": " + item.description + "\n"
  }

  /** `"    Notes: {notes}\n"` */
  function NotesLine(notes: string): string
  {
    "    Notes: " + notes + "\n"
  }

  /** `"    Depends on: {ids joined by ", "}\n"` */
  function DependsLine(ids: seq<string>): string
  {
    "    Depends on: " + Join(ids, ", ") + "\n"
  }

  /** The lines of one item: its headline, then notes and dependencies when present. */
  function ItemText(item: TodoItem): string
  {
    Headline(item)
    + (if item.notes != [] then NotesLine(item.notes) else "")
    + (if item.dependsOn != [] then DependsLine(item.dependsOn) else "")
  }

  /** The lines of all items, in order. */
  function ItemsText(items: seq<TodoItem>): string
  {
    if items == [] then "" else ItemText(items[0]) + ItemsText(items[1..])
  }

  lemma {:induction false} ItemsTextAppend(a: seq<TodoItem>, b: seq<TodoItem>)
    ensures ItemsText(a + b) == ItemsText(a) + ItemsText(b)
  {
    if a == [] {
      assert a + b == b;
    } else {
      assert (a + b)[0] == a[0];
      assert (a + b)[1..] == a[1..] + b;
      ItemsTextAppend(a[1..], b);
    }
  }

  lemma ItemsTextSnoc(items: seq<TodoItem>, i: nat)
    requires i < |items|
    ensures ItemsText(items[..i + 1]) == ItemsText(items[..i]) + ItemText(items[i])
  {
    assert items[..i + 1] == items[..i] + [items[i]];
    ItemsTextAppend(items[..i], [items[i]]);
    assert ItemsText([items[i]]) == ItemText(items[i]) + ItemsText([]);
  }

  /** Number of completed items. */
  function CountCompleted(items: seq<TodoItem>): (n: nat)
    ensures n <= |items|
    ensures n == 0 <==> forall i :: 0 <= i < |items| ==> items[i].status != Completed
    ensures n == |items| <==> forall i :: 0 <= i < |items| ==> items[i].status == Completed
  {
    if items == [] then 0
    else (if items[0].status == Completed then 1 else 0) + CountCompleted(items[1..])
  }

  function Header(title: string): string
  {
    "# " + title + "\n\n"
  }

  function ProgressLine(items: seq<TodoItem>): string
  {
    "\nProgress: " + NatToString(CountCompleted(items)) + "/" + NatToString(|items|) + " completed"
  }

  /** The text `format_todo_list` produces. */
  function TodoListText(list: TodoList): string
  {
    Header(list.title) + ItemsText(list.items) + ProgressLine(list.items)
  }

  /** `format_todo_list`: the title heading, each item's lines in turn, then the progress line. */
  method FormatTodoList(list: TodoList) returns (output: string)
    ensures output == TodoListText(list)
  {
    output := Header(list.title);
    var i := 0;
    while i < |list.items|
      invariant 0 <= i <= |list.items|
      invariant output == Header(list.title) + ItemsText(list.items[..i])
    {
      var item := list.items[i];
      var notesLine := if item.notes != [] then NotesLine(item.notes) else "";
      var dependsLine := if item.dependsOn != [] then DependsLine(item.dependsOn) else "";
      var lines := Headline(item) + notesLine + dependsLine;
      ItemsTextSnoc(list.items, i);
      assert lines == ItemText(item);
      AppendAssoc(Header(list.title), ItemsText(list.items[..i]), lines);
      output := output + lines;
      i := i + 1;
    }
    assert list.items[..i] == list.items;
    output := output + ProgressLine(list.items);
  }

  /** The rendered list starts with its title heading and ends with the progress line. */
  lemma TodoListTextFrame(list: TodoList)
    ensures StartsWith(TodoListText(list), "# " + list.title + "\n\n")
    ensures EndsWith(TodoListText(list), ProgressLine(list.items))
  {
    ThreePartFrame(Header(list.title), ItemsText(list.items), ProgressLine(list.items));
  }

  /** An item without notes or dependencies renders as its headline alone. */
  lemma PlainItemText(item: TodoItem)
    requires item.notes == [] && item.dependsOn == []
    ensures ItemText(item) == StatusIcon(item.status) + " " + item.id + ": " + item.description + "\n"
  {
  }

  /** A list fresh from the arguments has made no progress: every item is pending. */
  lemma {:induction false} FreshListProgress(args: Json, list: TodoList)
    requires GetArr(args, "items").Some?
    requires |list.items| == |GetArr(args, "items").value|
    requires forall i :: 0 <= i < |list.items| ==> ParseItem(GetArr(args, "items").value[i]) == Ok(list.items[i])
    ensures CountCompleted(list.items) == 0
    ensures ProgressLine(list.items) == "\nProgress: 0/" + NatToString(|list.items|) + " completed"
  {
    forall i | 0 <= i < |list.items| ensures list.items[i].status != Completed {
      assert ParseItem(GetArr(args, "items").value[i]).Ok?;
    }
  }
}
