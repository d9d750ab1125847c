/** The `App` component, the screen that is actually mounted: an older
    variant of the hook-based screen with three tables (no recipients), a
    menu, its own table registry, an edit form of plain text inputs and its
    own create handler, whose email payload is built from properties the
    create form never fills. */
module App {
  import opened Options
  import opened Json
  import opened Entities
  import opened Http
  import opened Routes
  import opened StatusApi
  import opened TaskApi
  import opened EmailApi
  import opened Outcomes
  import opened TableConfigs
  import opened FormFields

  datatype State = State(
    isOpen: bool,
    activeTable: Option<string>,
    isModalVisible: bool,
    isCreateModalVisible: bool,
    newItemType: Option<string>,
    currentRecord: Option<Fields>,
    editForm: Fields)

  datatype Outcome = Outcome(state: State, effects: Effects)

  const Initial: State := State(false, None, false, false, None, None, map[])

  /** The lists the component can refetch: it has no recipients query. */
  const Refetchable: set<Resource> := {Statuses, Tasks, Emails}

  /** The menu's entries, in order. */
  const MenuItems: seq<string> := ["tasks", "emails", "statuses"]

  const CreateFailed: string := "Ошибка при создании записи"
  const UpdateDone: string := "Данные успешно обновлены"
  const UpdateFailed: string := "Ошибка при обновлении данных"

  /** The component's own `tableConfigs`: the statuses, tasks and emails
      tables. The subject column has a search box but no `onFilter`, so a
      search filters nothing, and the recipients column is keyed
      `recipients` and shows the list with a plain `join`. */
  function AppRegistry(statuses: seq<Fields>, tasks: seq<Fields>, emails: seq<Fields>)
    : (r: map<string, TableConfig>)
    ensures r.Keys == {"statuses", "tasks", "emails"}
    ensures r["statuses"].data == statuses && r["tasks"].data == tasks && r["emails"].data == emails
    ensures forall k :: k in r ==> |r[k].columns| > 0 && r[k].columns[0] == IdColumn
    ensures forall k, i :: k in r && 0 <= i < |r[k].columns| ==> r[k].columns[i].filter != SubjectSearch(true)
  {
    map[
      "statuses" := TableConfig("Статусы", StatusColumns, statuses),
      "tasks" := TableConfig("Задачи", AppTaskColumns, tasks),
      "emails" := TableConfig("Сообщения", AppEmailColumns, emails)]
  }

  const AppTaskColumns: seq<Column> := [
    IdColumn,
    Column("Тема", "subject", "subject", None, SubjectSearch(false), AsIs),
    Plain("Содержание", "body"),
    Column("Дата создания", "created_at", "created_at", Some(ByCreatedAt), NoFilter, LocaleDate)]

  const AppEmailColumns: seq<Column> := [
    IdColumn,
    Column("Дата отправки", "send_at", "send_at", None, NoFilter, LocaleDate),
    Column("Статус", "status", "status", None, NoFilter, StatusName),
    Column("Задача", "task", "task", None, NoFilter, TaskSubject),
    Column("Получатели", "recipient_list", "recipients", None, NoFilter, JoinedText)]

  /** The texts `join` writes for the elements of a list. */
  function JoinTexts(items: seq<Value>): (ts: seq<string>)
    ensures |ts| == |items| && forall i :: 0 <= i < |items| ==> ts[i] == JoinText(items[i])
  {
    seq(|items|, i requires 0 <= i < |items| => JoinText(items[i]))
  }

  /** `recipients.join(', ') || 'Нет получателей'` over the list as stored. */
  function AppRecipientsCell(items: seq<Value>): (r: string)
    ensures r != ""
    ensures |items| == 0 ==> r == "Нет получателей"
    ensures |items| > 0 && JoinText(items[0]) != "" ==>
      |r| >= |JoinText(items[0])| && r[..|JoinText(items[0])|] == JoinText(items[0])
  {
    JoinEmptyIff(JoinTexts(items), ", ");
    JoinStartsWithFirst(JoinTexts(items), ", ");
    var text := Join(JoinTexts(items), ", ");
    if text != "" then text else "Нет получателей"
  }

  /** The recipients of an email are objects, so the component's recipients
      cell writes "[object Object]" for each of them: two emails with as many
      recipients show the same cell, whatever their addresses. */
  lemma AppRecipientsCellHidesAddresses(rs: seq<Recipient>)
    ensures JoinTexts(RecipientValues(rs)) == seq(|rs|, i => "[object Object]")
    ensures |rs| > 0 ==> AppRecipientsCell(RecipientValues(rs)) == Join(seq(|rs|, i => "[object Object]"), ", ")
    ensures |rs| == 0 ==> AppRecipientsCell(RecipientValues(rs)) == "Нет получателей"
  {
    var pieces := seq(|rs|, i => "[object Object]");
    forall i | 0 <= i < |rs|
      ensures JoinTexts(RecipientValues(rs))[i] == pieces[i]
    {
      assert RecipientValues(rs)[i] == Obj(RecipientFields(rs[i]));
      assert Show(Obj(RecipientFields(rs[i]))) == "[object Object]";
    }
    if |rs| > 0 {
      JoinEmptyIff(pieces, ", ");
      assert pieces[0] != "";
    }
  }

  /** `isStatusesLoading || isTasksLoading || isEmailsLoading`. */
  function IsLoading(statusesLoading: bool, tasksLoading: bool, emailsLoading: bool): (r: bool)
    ensures !r <==> !statusesLoading && !tasksLoading && !emailsLoading
  {
    statusesLoading || tasksLoading || emailsLoading
  }

  /** The component's `renderFormFields`: nothing without a current table
      and record; otherwise, per column, no field for the id and a required
      text input for every other column. */
  function AppFormFields(currentTable: Option<TableConfig>, currentRecord: Option<Fields>)
    : (r: Option<seq<Option<FormField>>>)
    ensures r.None? <==> currentTable.None? || currentRecord.None?
    ensures r.Some? ==> |r.value| == |currentTable.value.columns|
    ensures r.Some? ==> forall i :: 0 <= i < |r.value| ==>
      var c := currentTable.value.columns[i];
      && (r.value[i].None? <==> c.key == "id")
      && (r.value[i].Some? ==> r.value[i].value == FormField(c.key, c.title, [Required(RequiredMessage)], TextInput))
  {
    if currentTable.None? || currentRecord.None? then None
    else
      var cols := currentTable.value.columns;
      Some(seq(|cols|, i requires 0 <= i < |cols| =>
        if cols[i].key == "id" then None
        else Some(FormField(cols[i].key, cols[i].title, [Required(RequiredMessage)], TextInput))))
  }

  /** The email edit form of the component edits the send date, the status
      and the task as text, and a `recipients` property that email rows do
      not have; it has no field for `recipient_list`. */
  lemma AppEmailEditFields(statuses: seq<Fields>, tasks: seq<Fields>, emails: seq<Fields>, record: Fields)
    ensures
      var r := AppFormFields(Some(AppRegistry(statuses, tasks, emails)["emails"]), Some(record));
      && r.Some?
      && FieldNames(r.value) == {"send_at", "status", "task", "recipients"}
      && "recipient_list" !in FieldNames(r.value)
  {
    var table := AppRegistry(statuses, tasks, emails)["emails"];
    var r := AppFormFields(Some(table), Some(record));
    assert table.columns == AppEmailColumns;
    assert r.value[1].value.name == "send_at";
    assert r.value[2].value.name == "status";
    assert r.value[3].value.name == "task";
    assert r.value[4].value.name == "recipients";
  }

  /** `handleMenuItemClick(tableName)`. */
  function MenuItemClick(s: State, tableName: string): (t: State)
    ensures t.activeTable == Some(tableName) && !t.isOpen
    ensures t.(activeTable := s.activeTable, isOpen := s.isOpen) == s
  {
    s.(activeTable := Some(tableName), isOpen := false)
  }

  /** The `newItemType` chain of the component's `showCreateModal`: the
      recipients table has no case. */
  function NewItemType(activeTable: Option<string>, current: Option<string>): (r: Option<string>)
    ensures activeTable == Some("statuses") ==> r == Some("status")
    ensures activeTable == Some("tasks") ==> r == Some("task")
    ensures activeTable == Some("emails") ==> r == Some("email")
    ensures activeTable !in {Some("statuses"), Some("tasks"), Some("emails")} ==> r == current
  {
    if activeTable == Some("statuses") then Some("status")
    else if activeTable == Some("tasks") then Some("task")
    else if activeTable == Some("emails") then Some("email")
    else current
  }

  /** `showCreateModal`: pick the item type of the active table, open the
      create modal and clear the create form. */
  function ShowCreateStep(s: State): (o: Outcome)
    ensures o.state.isCreateModalVisible && o.effects == NoEffects.(createFormReset := true)
    ensures s.activeTable == Some("statuses") ==> o.state.newItemType == Some("status")
    ensures s.activeTable == Some("tasks") ==> o.state.newItemType == Some("task")
    ensures s.activeTable == Some("emails") ==> o.state.newItemType == Some("email")
    ensures s.activeTable == Some("recipients") ==> o.state.newItemType == s.newItemType
    ensures o.state.(newItemType := s.newItemType, isCreateModalVisible := s.isCreateModalVisible) == s
  {
    Outcome(s.(newItemType := NewItemType(s.activeTable, s.newItemType), isCreateModalVisible := true),
            NoEffects.(createFormReset := true))
  }

  /** Every table the menu opens has a create form: after choosing a menu
      entry and opening the create form, the item type names that table's
      records. */
  lemma MenuTablesCreate(s: State, i: nat)
    requires i < |MenuItems|
    ensures
      var t := ShowCreateStep(MenuItemClick(s, MenuItems[i])).state;
      && t.newItemType.Some?
      && TableOf(MenuItems[i]).Some?
      && t.newItemType.value == ["task", "email", "status"][i]
      && t.isCreateModalVisible && !t.isOpen
  {
  }

  /** The email body `handleCreate` posts: a status and a task both built
      from the form's `id` (and its other top-level properties), and the
      form's `recipients`, or [] when that is falsy. */
  function EmailPayload(values: Fields): (body: Fields)
    ensures body.Keys == {"status", "task", "recipient_list"}
    ensures body["status"].Obj? && body["task"].Obj?
    ensures Get(body["status"].fields, "id") == Get(body["task"].fields, "id") == Get(values, "id")
    ensures Truthy(Get(values, "recipients")) ==> body["recipient_list"] == Get(values, "recipients")
    ensures !Truthy(Get(values, "recipients")) ==> body["recipient_list"] == Arr([])
  {
    map[
      "status" := Obj(map[
        "id" := Get(values, "id"),
        "name" := Get(values, "name"),
        "description" := Get(values, "description")]),
      "task" := Obj(map[
        "id" := Get(values, "id"),
        "created_at" := Get(values, "created_at"),
        "subject" := Get(values, "subject"),
        "body" := Get(values, "body")]),
      "recipient_list" := (if Truthy(Get(values, "recipients")) then Get(values, "recipients") else Arr([]))]
  }

  /** The properties the component's email create form registers. */
  const EmailCreateFields: set<string> := {"recipient", "task_id", "status_id"}

  /** What the email create form holds never reaches the back end: built
      from a form with only its own fields, the email body is the same for
      every input, with an empty status, an empty task and no recipients. */
  lemma EmailPayloadIgnoresCreateForm(values: Fields)
    requires values.Keys <= EmailCreateFields
    ensures EmailPayload(values) == map[
      "status" := Obj(map["id" := Undefined, "name" := Undefined, "description" := Undefined]),
      "task" := Obj(map["id" := Undefined, "created_at" := Undefined, "subject" := Undefined, "body" := Undefined]),
      "recipient_list" := Arr([])]
  {
    assert "id" !in values && "name" !in values && "description" !in values;
    assert "created_at" !in values && "subject" !in values && "body" !in values && "recipients" !in values;
  }

  /** The `switch (newItemType)` of the component's `handleCreate`. */
  function CreateCall(newItemType: Option<string>, values: Fields): (d: Dispatch)
    ensures !d.Throws?
    ensures d.NoCall? <==> newItemType !in {Some("status"), Some("task"), Some("email")}
    ensures newItemType == Some("status") ==>
      d.mutation == Mutation(ExpectedRequest(Statuses, Create, Undefined, values), ExpectedTags(Statuses, Create, Undefined, None))
    ensures newItemType == Some("task") ==>
      d.mutation == Mutation(ExpectedRequest(Tasks, Create, Undefined, values), ExpectedTags(Tasks, Create, Undefined, None))
    ensures newItemType == Some("email") ==>
      d.mutation == Mutation(ExpectedRequest(Emails, Create, Undefined, EmailPayload(values)),
                             ExpectedTags(Emails, Create, Undefined, None))
  {
    if newItemType == Some("status") then Call(CreateStatus(values))
    else if newItemType == Some("task") then Call(CreateTask(values))
    else if newItemType == Some("email") then Call(CreateEmail(EmailPayload(values)))
    else NoCall
  }

  function CreatedMessage(newItemType: Option<string>): Option<Notice>
  {
    if newItemType == Some("status") then Some(Success("Статус успешно создан"))
    else if newItemType == Some("task") then Some(Success("Задача успешно создана"))
    else if newItemType == Some("email") then Some(Success("Сообщение успешно создано"))
    else None
  }

  /** The component's `handleCreate`: on failure an error is reported and
      nothing changes; otherwise the create modal closes, the create form
      is cleared and the active table's list is refetched. */
  function CreateStep(s: State, validated: Option<Fields>, backendOk: bool): (o: Outcome)
    ensures validated.None? || (CreateCall(s.newItemType, validated.value).Call? && !backendOk) ==>
      o.state == s && o.effects.refetched == {} && !o.effects.createFormReset
      && o.effects.notice == Some(Failure(CreateFailed))
    ensures validated.Some? && !(CreateCall(s.newItemType, validated.value).Call? && !backendOk) ==>
      o.state == s.(isCreateModalVisible := false) && o.effects.createFormReset
      && o.effects.refetched == ActiveRefetch(s.activeTable, Refetchable)
    ensures o.effects.sent.Some? <==> validated.Some? && CreateCall(s.newItemType, validated.value).Call?
    ensures o.effects.sent.Some? ==> o.effects.sent.value == CreateCall(s.newItemType, validated.value).mutation
  {
    if validated.None? then Outcome(s, Effects(None, {}, Some(Failure(CreateFailed)), false))
    else
      var d := CreateCall(s.newItemType, validated.value);
      var sent := if d.Call? then Some(d.mutation) else None;
      if d.Call? && !backendOk then Outcome(s, Effects(sent, {}, Some(Failure(CreateFailed)), false))
      else
        Outcome(s.(isCreateModalVisible := false),
                Effects(sent, ActiveRefetch(s.activeTable, Refetchable), CreatedMessage(s.newItemType), true))
  }

  /** Creating an email from the component's create form, whatever was
      typed into it, posts an email with an empty status and task and no
      recipients. */
  lemma EmailCreateIgnoresInput(s: State, values: Fields)
    requires s.newItemType == Some("email")
    requires values.Keys <= EmailCreateFields
    ensures
      var o := CreateStep(s, Some(values), true);
      && o.effects.sent.Some?
      && o.effects.sent.value.request.url == "emails/"
      && o.effects.sent.value.request.body == Obj(EmailPayload(map[]))
  {
    EmailPayloadIgnoresCreateForm(values);
    EmailPayloadIgnoresCreateForm(map[]);
  }

  /** The `switch (activeTable)` of the component's `handleSubmit`: the
      form's values are sent as they are, with the record's id. */
  function UpdateCall(activeTable: Option<string>, record: Fields, values: Fields): (d: Dispatch)
    ensures !d.Throws?
    ensures d.NoCall? <==>
      (activeTable.None? || TableOf(activeTable.value).None? || TableOf(activeTable.value).value !in Refetchable)
    ensures d.Call? ==>
      var r, arg := TableOf(activeTable.value).value, UpdateArgument(record, values);
      d.mutation == Mutation(ExpectedRequest(r, Update, Get(arg, "id"), arg), ExpectedTags(r, Update, Get(arg, "id"), None))
  {
    if activeTable == Some("statuses") then Call(UpdateStatus(UpdateArgument(record, values)))
    else if activeTable == Some("tasks") then Call(UpdateTask(UpdateArgument(record, values)))
    else if activeTable == Some("emails") then Call(UpdateEmail(UpdateArgument(record, values)))
    else NoCall
  }

  /** The component's `handleSubmit(values)`: with no current record
      nothing happens; on failure an error is reported and the edit modal
      stays open; otherwise it closes and the active table's list alone is
      refetched. */
  function SubmitStep(s: State, values: Fields, backendOk: bool): (o: Outcome)
    ensures s.currentRecord.None? ==> o == Outcome(s, NoEffects)
    ensures s.currentRecord.Some? ==>
      var d := UpdateCall(s.activeTable, s.currentRecord.value, values);
      && o.effects.sent == (if d.Call? then Some(d.mutation) else None)
      && (d.Call? && !backendOk ==>
            o.state == s && o.effects.refetched == {} && o.effects.notice == Some(Failure(UpdateFailed)))
      && (!(d.Call? && !backendOk) ==>
            o.state == s.(isModalVisible := false) && o.effects.notice == Some(Success(UpdateDone))
            && o.effects.refetched == ActiveRefetch(s.activeTable, Refetchable))
    ensures !o.effects.createFormReset
  {
    if s.currentRecord.None? then Outcome(s, NoEffects)
    else
      var d := UpdateCall(s.activeTable, s.currentRecord.value, values);
      var sent := if d.Call? then Some(d.mutation) else None;
      if d.Call? && !backendOk then Outcome(s, Effects(sent, {}, Some(Failure(UpdateFailed)), false))
      else
        Outcome(s.(isModalVisible := false),
                Effects(sent, ActiveRefetch(s.activeTable, Refetchable), Some(Success(UpdateDone)), false))
  }

  /** A row's double-click: the row becomes the current record, the edit
      modal opens and the row's own properties are written over the form,
      embedded objects and all. */
  function OpenRecordStep(s: State, record: Fields): (t: State)
    ensures t.currentRecord == Some(record) && t.isModalVisible
    ensures t.editForm.Keys == s.editForm.Keys + record.Keys
    ensures forall k :: k in record ==> t.editForm[k] == record[k]
    ensures forall k :: k in s.editForm && k !in record ==> t.editForm[k] == s.editForm[k]
    ensures t.(editForm := s.editForm, currentRecord := s.currentRecord, isModalVisible := s.isModalVisible) == s
  {
    s.(currentRecord := Some(record), isModalVisible := true, editForm := s.editForm + record)
  }

  /** What a `required` rule lets through: any value but `undefined`,
      `null`, the empty string and the empty array. */
  predicate Filled(v: Value)
  {
    !Nullish(v) && v != Str("") && v != Arr([])
  }

  /** The names of the fields the edit form registers: one per column of
      the current table but the id, none without a table and a record. */
  function EditFieldNames(currentTable: Option<TableConfig>, currentRecord: Option<Fields>): (names: set<string>)
    ensures currentTable.None? || currentRecord.None? ==> names == {}
    ensures currentTable.Some? && currentRecord.Some? ==> forall n :: n in names <==>
      n != "id" && exists i :: 0 <= i < |currentTable.value.columns| && currentTable.value.columns[i].key == n
  {
    var fields := AppFormFields(currentTable, currentRecord);
    if fields.None? then {} else FieldNames(fields.value)
  }

  /** A table whose first column is the id edits the keys of the others. */
  lemma EditFieldNamesAre(table: TableConfig, record: Fields, expected: seq<string>)
    requires |table.columns| == |expected| + 1 && table.columns[0].key == "id"
    requires forall i :: 0 <= i < |expected| ==> table.columns[i + 1].key == expected[i] && expected[i] != "id"
    ensures forall n :: n in EditFieldNames(Some(table), Some(record)) <==> n in expected
  {
    var names := EditFieldNames(Some(table), Some(record));
    forall n | n in expected
      ensures n in names
    {
      var i :| 0 <= i < |expected| && expected[i] == n;
      assert table.columns[i + 1].key == n;
    }
    forall n | n in names
      ensures n in expected
    {
      var i :| 0 <= i < |table.columns| && table.columns[i].key == n;
      assert expected[i - 1] == n;
    }
  }

  /** The edit form of each of the component's tables. */
  lemma AppEditFieldNames(statuses: seq<Fields>, tasks: seq<Fields>, emails: seq<Fields>, record: Fields)
    ensures EditFieldNames(Some(AppRegistry(statuses, tasks, emails)["statuses"]), Some(record)) == {"name", "description"}
    ensures EditFieldNames(Some(AppRegistry(statuses, tasks, emails)["tasks"]), Some(record)) == {"subject", "body", "created_at"}
    ensures EditFieldNames(Some(AppRegistry(statuses, tasks, emails)["emails"]), Some(record)) ==
      {"send_at", "status", "task", "recipients"}
  {
    var registry := AppRegistry(statuses, tasks, emails);
    StatusEditFieldNames(registry["statuses"], record);
    TaskEditFieldNames(registry["tasks"], record);
    EmailEditFieldNames(registry["emails"], record);
  }

  lemma StatusEditFieldNames(table: TableConfig, record: Fields)
    requires table.columns == StatusColumns
    ensures EditFieldNames(Some(table), Some(record)) == {"name", "description"}
  {
    EditFieldNamesAre(table, record, ["name", "description"]);
  }

  lemma TaskEditFieldNames(table: TableConfig, record: Fields)
    requires table.columns == AppTaskColumns
    ensures EditFieldNames(Some(table), Some(record)) == {"subject", "body", "created_at"}
  {
    EditFieldNamesAre(table, record, ["subject", "body", "created_at"]);
  }

  lemma EmailEditFieldNames(table: TableConfig, record: Fields)
    requires table.columns == AppEmailColumns
    ensures EditFieldNames(Some(table), Some(record)) == {"send_at", "status", "task", "recipients"}
  {
    EditFieldNamesAre(table, record, ["send_at", "status", "task", "recipients"]);
  }

  /** The edit modal's save button, `form.submit()`: every registered field
      is required, so with one of them empty nothing happens; otherwise
      `handleSubmit` receives the values of the registered fields alone. */
  function SaveStep(s: State, currentTable: Option<TableConfig>, backendOk: bool): (o: Outcome)
    ensures
      var names := EditFieldNames(currentTable, s.currentRecord);
      && (!(forall n :: n in names ==> Filled(Get(s.editForm, n))) ==> o == Outcome(s, NoEffects))
      && ((forall n :: n in names ==> Filled(Get(s.editForm, n))) ==>
            o == SubmitStep(s, Restrict(s.editForm, names), backendOk))
    ensures o.effects.sent.Some? ==>
      && s.currentRecord.Some?
      && var names := EditFieldNames(currentTable, s.currentRecord);
      && "id" !in names
      && (forall n :: n in names ==> n in s.editForm && Filled(s.editForm[n]))
  {
    var names := EditFieldNames(currentTable, s.currentRecord);
    if forall n :: n in names ==> Filled(Get(s.editForm, n)) then SubmitStep(s, Restrict(s.editForm, names), backendOk)
    else Outcome(s, NoEffects)
  }

  /** Saving the edit form of a table with an update endpoint sends
      something exactly when every registered field is filled, and then
      the update of the current record, by its id, with the registered
      fields' values. */
  lemma SaveSendsUpdate(s: State, currentTable: Option<TableConfig>, r: Resource)
    requires r in Refetchable && s.activeTable == Some(CollectionName(r)) && s.currentRecord.Some?
    requires "id" !in EditFieldNames(currentTable, s.currentRecord)
    ensures
      var names := EditFieldNames(currentTable, s.currentRecord);
      var o := SaveStep(s, currentTable, true);
      && (o.effects.sent.Some? <==> forall n :: n in names ==> Filled(Get(s.editForm, n)))
      && (o.effects.sent.Some? ==>
            && o.effects.sent.value.request ==
                 ExpectedRequest(r, Update, Get(s.currentRecord.value, "id"),
                                 UpdateArgument(s.currentRecord.value, Restrict(s.editForm, names)))
            && o.effects.refetched == {r}
            && !o.state.isModalVisible)
  {
    TableOfCollectionName(r);
    var record := s.currentRecord.value;
    var names := EditFieldNames(currentTable, s.currentRecord);
    var values := Restrict(s.editForm, names);
    var arg := UpdateArgument(record, values);
    assert "id" !in values;
    assert Get(arg, "id") == Get(record, "id");
    assert UpdateCall(s.activeTable, record, values).Call?;
  }

  /** A registered field holding null, undefined, "" or [] blocks the
      save: nothing is sent and nothing changes. */
  lemma EmptyFieldBlocksSave(s: State, currentTable: Option<TableConfig>, backendOk: bool, name: string)
    requires name in EditFieldNames(currentTable, s.currentRecord)
    requires Get(s.editForm, name) in {Undefined, Null, Str(""), Arr([])}
    ensures SaveStep(s, currentTable, backendOk) == Outcome(s, NoEffects)
  {
    assert !Filled(Get(s.editForm, name));
  }

  /** Double-clicking a status or task row and saving the form unchanged:
      something is sent exactly when every edited property is filled, and
      then it is the update of that row, by its id, with the form's values
      for the table's columns but the id, which are the row's own when the
      row has all of them. */
  lemma OpenThenSaveUnchanged(s: State, statuses: seq<Fields>, tasks: seq<Fields>, emails: seq<Fields>,
                              record: Fields, r: Resource)
    requires r in {Statuses, Tasks} && s.activeTable == Some(CollectionName(r))
    ensures
      var table := CurrentTable(s.activeTable, AppRegistry(statuses, tasks, emails));
      var names := EditFieldNames(table, Some(record));
      var t := OpenRecordStep(s, record);
      var o := SaveStep(t, table, true);
      && names == (if r == Statuses then {"name", "description"} else {"subject", "body", "created_at"})
      && (o.effects.sent.Some? <==> forall n :: n in names ==> Filled(Get(t.editForm, n)))
      && (o.effects.sent.Some? ==>
            && o.effects.sent.value.request ==
                 ExpectedRequest(r, Update, Get(record, "id"), UpdateArgument(record, Restrict(t.editForm, names)))
            && o.effects.refetched == {r}
            && !o.state.isModalVisible)
      && (names <= record.Keys ==> Restrict(t.editForm, names) == Restrict(record, names))
  {
    var registry := AppRegistry(statuses, tasks, emails);
    AppEditFieldNames(statuses, tasks, emails, record);
    var table := CurrentTable(s.activeTable, registry);
    assert table == Some(registry[CollectionName(r)]);
    var names := EditFieldNames(table, Some(record));
    assert names == (if r == Statuses then {"name", "description"} else {"subject", "body", "created_at"});
    var t := OpenRecordStep(s, record);
    SaveSendsUpdate(t, table, r);
    if names <= record.Keys {
      RestrictAfterOpen(s, record, names);
    }
  }

  /** Opening a record writes its properties over the edit form. */
  lemma RestrictAfterOpen(s: State, record: Fields, names: set<string>)
    requires names <= record.Keys
    ensures Restrict(OpenRecordStep(s, record).editForm, names) == Restrict(record, names)
  {
    var t := OpenRecordStep(s, record);
    assert Restrict(t.editForm, names).Keys == Restrict(record, names).Keys;
  }

  /** Email rows have no `recipients` property, which the email edit form
      requires: double-clicking an email and saving it unchanged sends
      nothing and leaves the edit modal open. */
  lemma OpenEmailThenSaveSendsNothing(s: State, statuses: seq<Fields>, tasks: seq<Fields>, emails: seq<Fields>,
                                      record: Fields, backendOk: bool)
    requires s.activeTable == Some("emails")
    requires "recipients" !in record && "recipients" !in s.editForm
    ensures
      var t := OpenRecordStep(s, record);
      SaveStep(t, CurrentTable(s.activeTable, AppRegistry(statuses, tasks, emails)), backendOk) == Outcome(t, NoEffects)
  {
    var registry := AppRegistry(statuses, tasks, emails);
    AppEditFieldNames(statuses, tasks, emails, record);
    var table := CurrentTable(s.activeTable, registry);
    assert table == Some(registry["emails"]);
    var t := OpenRecordStep(s, record);
    assert "recipients" in EditFieldNames(table, t.currentRecord);
    assert !Filled(Get(t.editForm, "recipients"));
  }

  class Screen {
    var isOpen: bool
    var activeTable: Option<string>
    var isModalVisible: bool
    var isCreateModalVisible: bool
    var newItemType: Option<string>
    var currentRecord: Option<Fields>
    var editForm: Fields

    function Snapshot(): State
      reads this
    {
      State(isOpen, activeTable, isModalVisible, isCreateModalVisible, newItemType, currentRecord, editForm)
    }

    constructor()
      ensures Snapshot() == Initial
    {
      isOpen := false;
      activeTable := None;
      isModalVisible := false;
      isCreateModalVisible := false;
      newItemType := None;
      currentRecord := None;
      editForm := map[];
    }

    /** The menu button: `setOpen(!isOpen)`. */
    method ToggleMenu()
      modifies this
      ensures Snapshot() == old(Snapshot()).(isOpen := !old(isOpen))
    {
      isOpen := !isOpen;
    }

    method HandleMenuItemClick(tableName: string)
      modifies this
      ensures Snapshot() == MenuItemClick(old(Snapshot()), tableName)
    {
      activeTable := Some(tableName);
      isOpen := false;
    }

    method ShowCreateModal() returns (ghost fx: Effects)
      modifies this
      ensures Snapshot() == ShowCreateStep(old(Snapshot())).state
      ensures fx == ShowCreateStep(old(Snapshot())).effects
    {
      if activeTable == Some("statuses") { newItemType := Some("status"); }
      if activeTable == Some("tasks") { newItemType := Some("task"); }
      if activeTable == Some("emails") { newItemType := Some("email"); }
      isCreateModalVisible := true;
      fx := NoEffects.(createFormReset := true);
    }

    /** The edit modal's cancel and close buttons. */
    method CancelEdit()
      modifies this
      ensures Snapshot() == old(Snapshot()).(isModalVisible := false)
    {
      isModalVisible := false;
    }

    /** The create modal's cancel button. */
    method CancelCreate()
      modifies this
      ensures Snapshot() == old(Snapshot()).(isCreateModalVisible := false)
    {
      isCreateModalVisible := false;
    }

    /** The edit modal's save button. */
    method Save(currentTable: Option<TableConfig>, backendOk: bool) returns (ghost fx: Effects)
      modifies this
      ensures Snapshot() == SaveStep(old(Snapshot()), currentTable, backendOk).state
      ensures fx == SaveStep(old(Snapshot()), currentTable, backendOk).effects
    {
      var names := EditFieldNames(currentTable, currentRecord);
      if forall n | n in names :: Filled(Get(editForm, n)) {
        fx := HandleSubmit(Restrict(editForm, names), backendOk);
      } else {
        fx := NoEffects;
      }
    }

    method OpenRecord(record: Fields)
      modifies this
      ensures Snapshot() == OpenRecordStep(old(Snapshot()), record)
    {
      currentRecord := Some(record);
      isModalVisible := true;
      editForm := editForm + record;
    }

    method RefetchActive() returns (refetched: set<Resource>)
      ensures refetched == ActiveRefetch(activeTable, Refetchable)
    {
      refetched := {};
      if activeTable == Some("statuses") { refetched := refetched + {Statuses}; }
      if activeTable == Some("tasks") { refetched := refetched + {Tasks}; }
      if activeTable == Some("emails") { refetched := refetched + {Emails}; }
    }

    method HandleCreate(validated: Option<Fields>, backendOk: bool) returns (ghost fx: Effects)
      modifies this
      ensures Snapshot() == CreateStep(old(Snapshot()), validated, backendOk).state
      ensures fx == CreateStep(old(Snapshot()), validated, backendOk).effects
    {
      if validated.None? {
        fx := Effects(None, {}, Some(Failure(CreateFailed)), false);
        return;
      }
      var values := validated.value;
      var sent: Option<Mutation> := None;
      var notice: Option<Notice> := None;
      if newItemType == Some("status") {
        sent, notice := Some(CreateStatus(values)), Some(Success("Статус успешно создан"));
      } else if newItemType == Some("task") {
        sent, notice := Some(CreateTask(values)), Some(Success("Задача успешно создана"));
      } else if newItemType == Some("email") {
        sent, notice := Some(CreateEmail(EmailPayload(values))), Some(Success("Сообщение успешно создано"));
      }
      if sent.Some? && !backendOk {
        fx := Effects(sent, {}, Some(Failure(CreateFailed)), false);
        return;
      }
      isCreateModalVisible := false;
      var refetched := RefetchActive();
      fx := Effects(sent, refetched, notice, true);
    }

    method HandleSubmit(values: Fields, backendOk: bool) returns (ghost fx: Effects)
      modifies this
      ensures Snapshot() == SubmitStep(old(Snapshot()), values, backendOk).state
      ensures fx == SubmitStep(old(Snapshot()), values, backendOk).effects
    {
      if currentRecord.None? {
        fx := NoEffects;
        return;
      }
      var arg := map["id" := Get(currentRecord.value, "id")] + values;
      var sent: Option<Mutation> := None;
      if activeTable == Some("statuses") {
        sent := Some(UpdateStatus(arg));
      } else if activeTable == Some("tasks") {
        sent := Some(UpdateTask(arg));
      } else if activeTable == Some("emails") {
        sent := Some(UpdateEmail(arg));
      }
      if sent.Some? && !backendOk {
        fx := Effects(sent, {}, Some(Failure(UpdateFailed)), false);
        return;
      }
      isModalVisible := false;
      var refetched := RefetchActive();
      fx := Effects(sent, refetched, Some(Success(UpdateDone)), false);
    }
  }
}
