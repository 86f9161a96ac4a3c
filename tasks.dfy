/**
 * The four task tools: list-tasks, get-task, create-task and update-task.
 */
module TaskTools {
  import opened Wrappers
  import Text
  import Js
  import Json
  import Errors
  import Api = SodiumClient
  import opened Records
  import opened Report

  // ----- list-tasks: formatTask -----

  /** The lines of a task block in list-tasks, in push order. */
  function ListedLines(t: Task): seq<Line>
  {
    [Line(0, Name, t.name), Line(0, Code, t.code)]
    + When(Js.Truthy(t.status), Line(0, Status, Js.Show(t.status)))
    + When(Js.Truthy(t.dueDate), Line(0, Due, Js.Show(t.dueDate)))
    + When(Js.Truthy(t.clientCode), Line(0, ForClient, Js.Show(t.clientCode)))
    + When(Js.Truthy(t.assignedTo), Line(0, AssignedTo, Js.Show(t.assignedTo)))
    + When(Js.Truthy(t.category), Line(0, Category, Js.Show(t.category)))
    + When(Js.Truthy(t.description), Line(0, Description, Js.Show(t.description)))
  }

  method FormatListed(t: Task) returns (text: string)
    ensures text == Block(ListedLines(t))
  {
    var lines := [Line(0, Name, t.name), Line(0, Code, t.code)];
    lines := PushWhen(lines, Js.Truthy(t.status), Line(0, Status, Js.Show(t.status)));
    lines := PushWhen(lines, Js.Truthy(t.dueDate), Line(0, Due, Js.Show(t.dueDate)));
    lines := PushWhen(lines, Js.Truthy(t.clientCode), Line(0, ForClient, Js.Show(t.clientCode)));
    lines := PushWhen(lines, Js.Truthy(t.assignedTo), Line(0, AssignedTo, Js.Show(t.assignedTo)));
    lines := PushWhen(lines, Js.Truthy(t.category), Line(0, Category, Js.Show(t.category)));
    lines := PushWhen(lines, Js.Truthy(t.description), Line(0, Description, Js.Show(t.description)));
    assert lines == ListedLines(t);
    text := Block(lines);
  }

  /** What a task block shows under each label: name and code always, every other field when non-empty. */
  function TaskField(t: Task, l: Label): Option<string>
  {
    match l
    case Name => Some(t.name)
    case Code => Some(t.code)
    case Status => Shown(t.status)
    case Due => Shown(t.dueDate)
    case ForClient => Shown(t.clientCode)
    case AssignedTo => Shown(t.assignedTo)
    case Category => Shown(t.category)
    case Description => Shown(t.description)
    case Created => Shown(t.createdAt)
    case Updated => Shown(t.updatedAt)
    case _ => None
  }

  lemma ListedHead(t: Task)
    ensures 2 <= |ListedLines(t)| <= 8
    ensures ListedLines(t)[..2] == [Line(0, Name, t.name), Line(0, Code, t.code)]
  {
  }

  /** A list block shows every task field except the two timestamps. */
  lemma ListedShows(t: Task, l: Label)
    ensures ShowsAs(ListedLines(t), l, if l in {Created, Updated} then None else TaskField(t, l))
  {
  }

  // ----- get-task: formatTask -----

  /** The lines of a task block in get-task, in push order. */
  function DetailLines(t: Task): seq<Line>
  {
    [Line(0, Name, t.name), Line(0, Code, t.code)]
    + When(Js.Truthy(t.status), Line(0, Status, Js.Show(t.status)))
    + When(Js.Truthy(t.dueDate), Line(0, Due, Js.Show(t.dueDate)))
    + When(Js.Truthy(t.clientCode), Line(0, ForClient, Js.Show(t.clientCode)))
    + When(Js.Truthy(t.assignedTo), Line(0, AssignedTo, Js.Show(t.assignedTo)))
    + When(Js.Truthy(t.category), Line(0, Category, Js.Show(t.category)))
    + When(Js.Truthy(t.description), Line(0, Description, Js.Show(t.description)))
    + When(Js.Truthy(t.createdAt), Line(0, Created, Js.Show(t.createdAt)))
    + When(Js.Truthy(t.updatedAt), Line(0, Updated, Js.Show(t.updatedAt)))
  }

  method FormatDetail(t: Task) returns (text: string)
    ensures text == Block(DetailLines(t))
  {
    var lines := [Line(0, Name, t.name), Line(0, Code, t.code)];
    lines := PushWhen(lines, Js.Truthy(t.status), Line(0, Status, Js.Show(t.status)));
    lines := PushWhen(lines, Js.Truthy(t.dueDate), Line(0, Due, Js.Show(t.dueDate)));
    lines := PushWhen(lines, Js.Truthy(t.clientCode), Line(0, ForClient, Js.Show(t.clientCode)));
    lines := PushWhen(lines, Js.Truthy(t.assignedTo), Line(0, AssignedTo, Js.Show(t.assignedTo)));
    lines := PushWhen(lines, Js.Truthy(t.category), Line(0, Category, Js.Show(t.category)));
    lines := PushWhen(lines, Js.Truthy(t.description), Line(0, Description, Js.Show(t.description)));
    lines := PushWhen(lines, Js.Truthy(t.createdAt), Line(0, Created, Js.Show(t.createdAt)));
    lines := PushWhen(lines, Js.Truthy(t.updatedAt), Line(0, Updated, Js.Show(t.updatedAt)));
    assert lines == DetailLines(t);
    text := Block(lines);
  }

  /** The detail block is the list block with optional trailing Created and Updated lines. */
  lemma DetailExtendsListed(t: Task)
    ensures DetailLines(t) == ListedLines(t)
      + When(Js.Truthy(t.createdAt), Line(0, Created, Js.Show(t.createdAt)))
      + When(Js.Truthy(t.updatedAt), Line(0, Updated, Js.Show(t.updatedAt)))
  {
  }

  lemma DetailShows(t: Task, l: Label)
    ensures ShowsAs(DetailLines(t), l, TaskField(t, l))
  {
  }

  // ----- list-tasks handler -----

  datatype ListArgs = ListArgs(offset: Option<real>, limit: Option<real>, clientCode: Option<string>)

  /** The handler forwards exactly offset, limit and clientCode. */
  function ListCall(a: ListArgs): (op: Api.Operation)
    ensures op.ListTasks? && op.query.Some?
    ensures op.query.value == [("offset", Api.QNumber(a.offset)), ("limit", Api.QNumber(a.limit)),
                               ("clientCode", Api.QString(a.clientCode))]
  {
    Api.ListTasks(Some([("offset", Api.QNumber(a.offset)), ("limit", Api.QNumber(a.limit)),
                           ("clientCode", Api.QString(a.clientCode))]))
  }

  function ListText(rt: Js.Runtime, out: Errors.Outcome<Option<seq<Task>>>): (text: string)
    ensures out.Threw? ==> text == ErrorText(rt, "Error listing tasks", out.error)
    ensures out.Returned? && (out.value.None? || |out.value.value| == 0) ==> text == "No tasks found."
    ensures out.Returned? && out.value.Some? && |out.value.value| > 0 ==>
      var ts := out.value.value;
      text == FoundHeader(|ts|, "task", "") + "\n\n"
              + Text.Join(seq(|ts|, i requires 0 <= i < |ts| => Block(ListedLines(ts[i]))), Separator)
  {
    match out
    case Threw(e) => ErrorText(rt, "Error listing tasks", e)
    case Returned(None) => "No tasks found."
    case Returned(Some(ts)) =>
      Listing("No tasks found.", FoundHeader(|ts|, "task", ""),
              seq(|ts|, i requires 0 <= i < |ts| => Block(ListedLines(ts[i]))), Separator)
  }

  // ----- get-task handler -----

  function GetCall(code: string): (op: Api.Operation)
    ensures op.GetTask? && op.code == code
  {
    Api.GetTask(code)
  }

  function GetText(rt: Js.Runtime, out: Errors.Outcome<Task>): (text: string)
    ensures out.Returned? ==> text == "Task Details:\n\n" + Block(DetailLines(out.value))
    ensures out.Threw? ==> text == ErrorText(rt, "Error getting task", out.error)
  {
    match out
    case Returned(t) => "Task Details:\n\n" + Block(DetailLines(t))
    case Threw(e) => ErrorText(rt, "Error getting task", e)
  }

  // ----- create-task -----

  datatype CreateArgs = CreateArgs(
    name: string,
    description: Option<string>,
    dueDate: Option<string>,
    clientCode: Option<string>,
    assignedTo: Option<string>,
    category: Option<string>)

  /** `{ name, description, dueDate, clientCode, assignedTo, category }`. */
  function CreateBody(a: CreateArgs): (data: Json.JsObject)
    ensures Json.Keys(data) == ["name", "description", "dueDate", "clientCode", "assignedTo", "category"]
    ensures Json.Distinct(Json.Keys(data))
  {
    var data := [("name", Some(Json.JString(a.name))), ("description", Json.OptString(a.description)),
                 ("dueDate", Json.OptString(a.dueDate)), ("clientCode", Json.OptString(a.clientCode)),
                 ("assignedTo", Json.OptString(a.assignedTo)), ("category", Json.OptString(a.category))];
    assert Json.Keys(data) == ["name", "description", "dueDate", "clientCode", "assignedTo", "category"];
    assert Json.Distinct(["name", "description", "dueDate", "clientCode", "assignedTo", "category"]);
    data
  }

  /** Each argument is forwarded unchanged under its own key. */
  lemma CreateForwards(a: CreateArgs)
    ensures Json.Field(CreateBody(a), "name") == Some(Some(Json.JString(a.name)))
    ensures Json.Field(CreateBody(a), "description") == Some(Json.OptString(a.description))
    ensures Json.Field(CreateBody(a), "dueDate") == Some(Json.OptString(a.dueDate))
    ensures Json.Field(CreateBody(a), "clientCode") == Some(Json.OptString(a.clientCode))
    ensures Json.Field(CreateBody(a), "assignedTo") == Some(Json.OptString(a.assignedTo))
    ensures Json.Field(CreateBody(a), "category") == Some(Json.OptString(a.category))
  {
    var data := CreateBody(a);
    Json.FieldAt(data, 0);
    Json.FieldAt(data, 1);
    Json.FieldAt(data, 2);
    Json.FieldAt(data, 3);
    Json.FieldAt(data, 4);
    Json.FieldAt(data, 5);
    assert data[0].0 == "name" && data[1].0 == "description" && data[2].0 == "dueDate";
    assert data[3].0 == "clientCode" && data[4].0 == "assignedTo" && data[5].0 == "category";
  }

  function CreateCall(a: CreateArgs): (op: Api.Operation)
    ensures op.CreateTask? && op.data == CreateBody(a)
  {
    Api.CreateTask(CreateBody(a))
  }

  /** The lines create-task prints, in push order. */
  function CreatedLines(t: Task): seq<Line>
  {
    [Raw("Task created successfully!"), Raw(""), Line(0, Code, t.code), Line(0, Name, t.name)]
    + When(Js.Truthy(t.dueDate), Line(0, Due, Js.Show(t.dueDate)))
    + When(Js.Truthy(t.clientCode), Line(0, ForClient, Js.Show(t.clientCode)))
    + When(Js.Truthy(t.assignedTo), Line(0, AssignedTo, Js.Show(t.assignedTo)))
  }

  method FormatCreated(t: Task) returns (text: string)
    ensures text == Block(CreatedLines(t))
  {
    var lines := [Raw("Task created successfully!"), Raw(""), Line(0, Code, t.code), Line(0, Name, t.name)];
    lines := PushWhen(lines, Js.Truthy(t.dueDate), Line(0, Due, Js.Show(t.dueDate)));
    lines := PushWhen(lines, Js.Truthy(t.clientCode), Line(0, ForClient, Js.Show(t.clientCode)));
    lines := PushWhen(lines, Js.Truthy(t.assignedTo), Line(0, AssignedTo, Js.Show(t.assignedTo)));
    assert lines == CreatedLines(t);
    text := Block(lines);
  }

  lemma CreatedHead(t: Task)
    ensures 4 <= |CreatedLines(t)| <= 7
    ensures CreatedLines(t)[..4] == [Raw("Task created successfully!"), Raw(""), Line(0, Code, t.code), Line(0, Name, t.name)]
  {
  }

  /** Only Code, Name, Due, Client and Assigned to can be shown: never Status, Category or Description. */
  lemma CreatedShows(t: Task, l: Label)
    ensures ShowsAs(CreatedLines(t), l, if l in {Code, Name, Due, ForClient, AssignedTo} then TaskField(t, l) else None)
  {
  }

  function CreateText(rt: Js.Runtime, out: Errors.Outcome<Task>): (text: string)
    ensures out.Returned? ==> text == Block(CreatedLines(out.value))
    ensures out.Threw? ==> text == ErrorText(rt, "Error creating task", out.error)
  {
    match out
    case Returned(t) => Block(CreatedLines(t))
    case Threw(e) => ErrorText(rt, "Error creating task", e)
  }

  // ----- update-task -----

  datatype UpdateArgs = UpdateArgs(
    code: string,
    name: Option<string>,
    description: Option<string>,
    status: Option<string>,
    dueDate: Option<string>,
    assignedTo: Option<string>,
    category: Option<string>)

  /** `{ name, description, status, dueDate, assignedTo, category }`: there is no clientCode key. */
  function UpdateBody(a: UpdateArgs): (data: Json.JsObject)
    ensures Json.Keys(data) == ["name", "description", "status", "dueDate", "assignedTo", "category"]
    ensures Json.Distinct(Json.Keys(data))
  {
    var data := [("name", Json.OptString(a.name)), ("description", Json.OptString(a.description)),
                 ("status", Json.OptString(a.status)), ("dueDate", Json.OptString(a.dueDate)),
                 ("assignedTo", Json.OptString(a.assignedTo)), ("category", Json.OptString(a.category))];
    assert Json.Keys(data) == ["name", "description", "status", "dueDate", "assignedTo", "category"];
    assert Json.Distinct(["name", "description", "status", "dueDate", "assignedTo", "category"]);
    data
  }

  /** Each argument is forwarded unchanged under its own key. */
  lemma UpdateForwards(a: UpdateArgs)
    ensures Json.Field(UpdateBody(a), "name") == Some(Json.OptString(a.name))
    ensures Json.Field(UpdateBody(a), "description") == Some(Json.OptString(a.description))
    ensures Json.Field(UpdateBody(a), "status") == Some(Json.OptString(a.status))
    ensures Json.Field(UpdateBody(a), "dueDate") == Some(Json.OptString(a.dueDate))
    ensures Json.Field(UpdateBody(a), "assignedTo") == Some(Json.OptString(a.assignedTo))
    ensures Json.Field(UpdateBody(a), "category") == Some(Json.OptString(a.category))
  {
    var data := UpdateBody(a);
    Json.FieldAt(data, 0);
    Json.FieldAt(data, 1);
    Json.FieldAt(data, 2);
    Json.FieldAt(data, 3);
    Json.FieldAt(data, 4);
    Json.FieldAt(data, 5);
  }
  /** An update never sends a client code, so a task cannot be moved to another client. */
  lemma UpdateOmitsClient(a: UpdateArgs)
    ensures Json.Field(UpdateBody(a), "clientCode").None?
  {
    var data := UpdateBody(a);
    assert "clientCode" !in ["name", "description", "status", "dueDate", "assignedTo", "category"];
    Json.FieldAbsent(data, "clientCode");
  }


  function UpdateCall(a: UpdateArgs): (op: Api.Operation)
    ensures op.UpdateTask? && op.code == a.code && op.data == UpdateBody(a)
  {
    Api.UpdateTask(a.code, UpdateBody(a))
  }

  /** The lines update-task prints, in push order. */
  function UpdatedLines(t: Task): seq<Line>
  {
    [Raw("Task updated successfully!"), Raw(""), Line(0, Code, t.code), Line(0, Name, t.name)]
    + When(Js.Truthy(t.status), Line(0, Status, Js.Show(t.status)))
    + When(Js.Truthy(t.dueDate), Line(0, Due, Js.Show(t.dueDate)))
    + When(Js.Truthy(t.assignedTo), Line(0, AssignedTo, Js.Show(t.assignedTo)))
  }

  method FormatUpdated(t: Task) returns (text: string)
    ensures text == Block(UpdatedLines(t))
  {
    var lines := [Raw("Task updated successfully!"), Raw(""), Line(0, Code, t.code), Line(0, Name, t.name)];
    lines := PushWhen(lines, Js.Truthy(t.status), Line(0, Status, Js.Show(t.status)));
    lines := PushWhen(lines, Js.Truthy(t.dueDate), Line(0, Due, Js.Show(t.dueDate)));
    lines := PushWhen(lines, Js.Truthy(t.assignedTo), Line(0, AssignedTo, Js.Show(t.assignedTo)));
    assert lines == UpdatedLines(t);
    text := Block(lines);
  }

  lemma UpdatedHead(t: Task)
    ensures 4 <= |UpdatedLines(t)| <= 7
    ensures UpdatedLines(t)[..4] == [Raw("Task updated successfully!"), Raw(""), Line(0, Code, t.code), Line(0, Name, t.name)]
  {
  }

  /** Only Code, Name, Status, Due and Assigned to can be shown. */
  lemma UpdatedShows(t: Task, l: Label)
    ensures ShowsAs(UpdatedLines(t), l, if l in {Code, Name, Status, Due, AssignedTo} then TaskField(t, l) else None)
  {
  }

  function UpdateText(rt: Js.Runtime, out: Errors.Outcome<Task>): (text: string)
    ensures out.Returned? ==> text == Block(UpdatedLines(out.value))
    ensures out.Threw? ==> text == ErrorText(rt, "Error updating task", out.error)
  {
    match out
    case Returned(t) => Block(UpdatedLines(t))
    case Threw(e) => ErrorText(rt, "Error updating task", e)
  }
}
