/** The edit form of the hook-based screen: one entry per column of the
    current table, chosen by the column's key. A field is a value here (its
    name, label, rules and control), not an element. */
module FormFields {
  import opened Options
  import opened Json
  import opened Entities
  import opened EmailForm
  import opened TableConfigs

  datatype Rule = Required(message: string)

  const RequiredMessage: string := "Поле обязательно для заполнения"

  /** An option of the recipients select: the id is the value kept in the
      form, the address the label (`caption`) shown and searched. */
  datatype RecipientOption = RecipientOption(value: int, caption: string)

  /** A single select over status ids or task ids (the option values, in
      list order), a multiple select over recipients, or a text input. */
  datatype Control =
    | StatusSelect(values: seq<int>)
    | TaskSelect(values: seq<int>)
    | RecipientSelect(options: seq<RecipientOption>)
    | TextInput

  /** A `Form.Item`: the form property it edits, its label (`caption`) and its rules. */
  datatype FormField = FormField(name: string, caption: string, rules: seq<Rule>, control: Control)

  datatype FieldKind = NoField | StatusKind | TaskKind | RecipientsKind | TextKind

  const Hidden: set<string> := {"id", "created_at", "send_at"}

  /** Which field a column key gets: none for ids and timestamps, a select
      for each reference, a text input for everything else. */
  function KindOf(key: string): (k: FieldKind)
    ensures k == NoField <==> key in Hidden
    ensures k == StatusKind <==> key == "status"
    ensures k == TaskKind <==> key == "task"
    ensures k == RecipientsKind <==> key == "recipient_list"
    ensures k == TextKind <==> key !in Hidden + ReferenceKeys
  {
    if key in Hidden then NoField
    else if key == "status" then StatusKind
    else if key == "task" then TaskKind
    else if key == "recipient_list" then RecipientsKind
    else TextKind
  }

  function RecipientOptions(recipients: seq<Recipient>): (os: seq<RecipientOption>)
    ensures |os| == |recipients|
    ensures forall i :: 0 <= i < |recipients| ==>
      os[i] == RecipientOption(recipients[i].id, recipients[i].address)
  {
    seq(|recipients|, i requires 0 <= i < |recipients| => RecipientOption(recipients[i].id, recipients[i].address))
  }

  /** The field one column gets. */
  function FieldFor(column: Column, refs: Refs): (f: Option<FormField>)
    ensures f.None? <==> KindOf(column.key) == NoField
    ensures f.Some? ==> f.value.name == column.key && f.value.caption == column.title
    ensures f.Some? ==> (f.value.rules == [] <==> f.value.control != TextInput)
    ensures f.Some? && f.value.rules != [] ==> f.value.rules == [Required(RequiredMessage)]
    ensures f.Some? && f.value.control.StatusSelect? ==> f.value.control.values == StatusIds(refs.statuses)
    ensures f.Some? && f.value.control.TaskSelect? ==> f.value.control.values == TaskIds(refs.tasks)
    ensures f.Some? && f.value.control.RecipientSelect? ==>
      f.value.control.options == RecipientOptions(refs.recipients)
    ensures f.Some? ==> match KindOf(column.key)
      case StatusKind => f.value.control.StatusSelect?
      case TaskKind => f.value.control.TaskSelect?
      case RecipientsKind => f.value.control.RecipientSelect?
      case _ => f.value.control == TextInput
  {
    match KindOf(column.key)
    case NoField => None
    case StatusKind => Some(FormField(column.key, column.title, [], StatusSelect(StatusIds(refs.statuses))))
    case TaskKind => Some(FormField(column.key, column.title, [], TaskSelect(TaskIds(refs.tasks))))
    case RecipientsKind =>
      Some(FormField(column.key, column.title, [], RecipientSelect(RecipientOptions(refs.recipients))))
    case TextKind => Some(FormField(column.key, column.title, [Required(RequiredMessage)], TextInput))
  }

  /** `renderFormFields`: nothing without a current table and a current
      record; otherwise one entry per column, in column order. */
  function RenderFormFields(currentTable: Option<TableConfig>, currentRecord: Option<Fields>, refs: Refs)
    : (r: Option<seq<Option<FormField>>>)
    ensures r.None? <==> currentTable.None? || currentRecord.None?
    ensures r.Some? ==> |r.value| == |currentTable.value.columns|
    ensures r.Some? ==> forall i :: 0 <= i < |r.value| ==> r.value[i] == FieldFor(currentTable.value.columns[i], refs)
  {
    if currentTable.None? || currentRecord.None? then None
    else
      var cols := currentTable.value.columns;
      Some(seq(|cols|, i requires 0 <= i < |cols| => FieldFor(cols[i], refs)))
  }

  /** The form properties a list of fields registers. */
  function FieldNames(fields: seq<Option<FormField>>): (names: set<string>)
    ensures forall n :: n in names <==> exists i :: 0 <= i < |fields| && fields[i].Some? && fields[i].value.name == n
  {
    set i | 0 <= i < |fields| && fields[i].Some? :: fields[i].value.name
  }

  /** The email table's edit form holds exactly three fields, one per
      reference: the status and task selects carry no rule, and no field
      edits the id or the send date. */
  lemma EmailFormFields(statuses: seq<Fields>, tasks: seq<Fields>, emails: seq<Fields>, recipients: seq<Fields>,
                        record: Fields, refs: Refs)
    ensures
      var table := Registry(statuses, tasks, emails, recipients)["emails"];
      var r := RenderFormFields(Some(table), Some(record), refs);
      && r.Some?
      && r.value == [
        None,
        None,
        Some(FormField("status", "Статус", [], StatusSelect(StatusIds(refs.statuses)))),
        Some(FormField("task", "Задача", [], TaskSelect(TaskIds(refs.tasks)))),
        Some(FormField("recipient_list", "Получатели", [], RecipientSelect(RecipientOptions(refs.recipients))))]
      && FieldNames(r.value) == ReferenceKeys
  {
    var table := Registry(statuses, tasks, emails, recipients)["emails"];
    var r := RenderFormFields(Some(table), Some(record), refs);
    assert table.columns == EmailColumns;
    assert r.value[2].value.name == "status";
    assert r.value[3].value.name == "task";
    assert r.value[4].value.name == "recipient_list";
  }

  /** Every field of the other three tables is a required text input for one
      of the record's own properties. */
  lemma PlainTablesHaveTextFields(name: string, statuses: seq<Fields>, tasks: seq<Fields>, emails: seq<Fields>,
                                  recipients: seq<Fields>, record: Fields, refs: Refs)
    requires name in TableNames && name != "emails"
    ensures
      var table := Registry(statuses, tasks, emails, recipients)[name];
      var r := RenderFormFields(Some(table), Some(record), refs);
      forall i :: 0 <= i < |r.value| && r.value[i].Some? ==>
        r.value[i].value.control == TextInput && r.value[i].value.rules == [Required(RequiredMessage)]
  {
    var table := Registry(statuses, tasks, emails, recipients)[name];
    assert table.columns == StatusColumns || table.columns == TaskColumns || table.columns == RecipientColumns;
    forall i | 0 <= i < |table.columns|
      ensures table.columns[i].key !in ReferenceKeys
    {
    }
  }
}
