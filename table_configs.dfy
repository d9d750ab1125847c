/** The table registry of the admin screen: for each reference list, its
    title, its columns (with their sorters, the subject search and the cell
    renderers) and the rows it shows. Columns are values here; what a
    column's lambdas compute is given by the functions below. */
module TableConfigs {
  import opened Options
  import opened Json
  import opened Entities

  /** `(a, b) => a.id - b.id`, or the same on `created_at` timestamps. */
  datatype Sorter = ById | ByCreatedAt

  /** A search dropdown on the subject column; `filters` says whether the
      column also has the `onFilter` that applies the search. */
  datatype ColumnFilter = NoFilter | SubjectSearch(filters: bool)

  /** How a cell shows its value: as it is, as a local date, or through one
      of the cell functions below. */
  datatype Renderer = AsIs | LocaleDate | StatusName | TaskSubject | RecipientAddresses | JoinedText

  datatype Column = Column(
    title: string,
    dataIndex: string,
    key: string,
    sorter: Option<Sorter>,
    filter: ColumnFilter,
    render: Renderer)

  datatype TableConfig = TableConfig(title: string, columns: seq<Column>, data: seq<Fields>)

  function Plain(title: string, key: string): Column
  {
    Column(title, key, key, None, NoFilter, AsIs)
  }

  const IdColumn: Column := Column("ID", "id", "id", Some(ById), NoFilter, AsIs)

  const StatusColumns: seq<Column> := [IdColumn, Plain("Название", "name"), Plain("Описание", "description")]

  const TaskColumns: seq<Column> := [
    IdColumn,
    Column("Тема", "subject", "subject", None, SubjectSearch(true), AsIs),
    Plain("Содержание", "body"),
    Column("Дата создания", "created_at", "created_at", Some(ByCreatedAt), NoFilter, LocaleDate)]

  const EmailColumns: seq<Column> := [
    IdColumn,
    Column("Дата отправки", "send_at", "send_at", None, NoFilter, LocaleDate),
    Column("Статус", "status", "status", None, NoFilter, StatusName),
    Column("Задача", "task", "task", None, NoFilter, TaskSubject),
    Column("Получатели", "recipient_list", "recipient_list", None, NoFilter, RecipientAddresses)]

  const RecipientColumns: seq<Column> := [IdColumn, Plain("Адрес", "address")]

  const TableNames: set<string> := {"statuses", "tasks", "emails", "recipients"}

  /** `tableConfigs`, over the four lists it is given: exactly one table per
      reference list, each bound to its own list and opening with the id
      column; the task subject is the only searchable column. */
  function Registry(statuses: seq<Fields>, tasks: seq<Fields>, emails: seq<Fields>, recipients: seq<Fields>)
    : (r: map<string, TableConfig>)
    ensures r.Keys == TableNames
    ensures r["statuses"].data == statuses && r["tasks"].data == tasks
    ensures r["emails"].data == emails && r["recipients"].data == recipients
    ensures forall k :: k in r ==> |r[k].columns| > 0 && r[k].columns[0] == IdColumn
    ensures forall k, i :: k in r && 0 <= i < |r[k].columns| && r[k].columns[i].filter != NoFilter ==>
      k == "tasks" && r[k].columns[i].key == "subject"
  {
    map[
      "statuses" := TableConfig("Статусы", StatusColumns, statuses),
      "tasks" := TableConfig("Задачи", TaskColumns, tasks),
      "emails" := TableConfig("Сообщения", EmailColumns, emails),
      "recipients" := TableConfig("Получатели", RecipientColumns, recipients)]
  }

  /** `activeTable ? tableConfigs[activeTable] : null`: no table when none is
      active or the name is not in the registry. */
  function CurrentTable(activeTable: Option<string>, registry: map<string, TableConfig>): (r: Option<TableConfig>)
    ensures r.Some? <==> activeTable.Some? && activeTable.value != "" && activeTable.value in registry
    ensures r.Some? ==> r.value == registry[activeTable.value]
  {
    if activeTable.Some? && activeTable.value != "" && activeTable.value in registry
    then Some(registry[activeTable.value])
    else None
  }

  function SortKey(s: Sorter): string
  {
    match s
    case ById => "id"
    case ByCreatedAt => "created_at"
  }

  /** A sorter's comparison of two rows: negative, zero or positive as the
      first row's key is below, equal to or above the second's. None: a key
      is not a number (the difference is NaN). */
  function Compare(s: Sorter, a: Fields, b: Fields): (r: Option<int>)
    ensures r.Some? <==> Get(a, SortKey(s)).Num? && Get(b, SortKey(s)).Num?
    ensures r.Some? ==> (r.value < 0 <==> Get(a, SortKey(s)).n < Get(b, SortKey(s)).n)
    ensures r.Some? ==> (r.value == 0 <==> Get(a, SortKey(s)).n == Get(b, SortKey(s)).n)
    ensures r.Some? ==> (r.value > 0 <==> Get(a, SortKey(s)).n > Get(b, SortKey(s)).n)
  {
    var x, y := Get(a, SortKey(s)), Get(b, SortKey(s));
    if x.Num? && y.Num? then Some(x.n - y.n) else None
  }

  /** Swapping the rows negates the comparison, so the order is the same
      read from either side. */
  lemma CompareSwap(s: Sorter, a: Fields, b: Fields)
    ensures Compare(s, b, a).Some? == Compare(s, a, b).Some?
    ensures Compare(s, a, b).Some? ==> Compare(s, b, a).value == -Compare(s, a, b).value
  {
  }

  /** `toLowerCase` on one character, for the Latin and Russian alphabets. */
  function LowerChar(c: char): (r: char)
    ensures 'A' <= c <= 'Z' ==> r as int == c as int + 32
    ensures 'А' <= c <= 'Я' ==> r as int == c as int + 32
    ensures c == 'Ё' ==> r == 'ё'
    ensures !('A' <= c <= 'Z' || 'А' <= c <= 'Я' || c == 'Ё') ==> r == c
  {
    if 'A' <= c <= 'Z' || 'А' <= c <= 'Я' then (c as int + 32) as char
    else if c == 'Ё' then 'ё'
    else c
  }

  function Lower(s: string): (r: string)
    ensures |r| == |s| && forall i :: 0 <= i < |s| ==> r[i] == LowerChar(s[i])
  {
    seq(|s|, i requires 0 <= i < |s| => LowerChar(s[i]))
  }

  /** Lower-casing twice changes nothing more. */
  lemma LowerIdempotent(s: string)
    ensures Lower(Lower(s)) == Lower(s)
  {
    forall i | 0 <= i < |s|
      ensures Lower(Lower(s))[i] == Lower(s)[i]
    {
      var c := s[i];
      if 'A' <= c <= 'Z' || 'А' <= c <= 'Я' {
        assert !('A' <= LowerChar(c) <= 'Z' || 'А' <= LowerChar(c) <= 'Я' || LowerChar(c) == 'Ё');
      }
    }
  }

  /** Lower-casing commutes with taking a slice. */
  lemma LowerSlice(s: string, i: nat, j: nat)
    requires i <= j <= |s|
    ensures Lower(s[i..j]) == Lower(s)[i..j]
  {
  }

  /** `value` occurs in `subject` at position `i` when letter case is ignored. */
  predicate OccursIgnoringCaseAt(subject: string, value: string, i: nat)
  {
    i + |value| <= |subject| && Lower(subject[i..i + |value|]) == Lower(value)
  }

  /** An occurrence in the lower-cased text is an occurrence ignoring case, and back. */
  lemma LowerOccurrence(value: string, subject: string)
    ensures (exists i: nat :: OccursAt(Lower(subject), Lower(value), i)) <==>
      exists i: nat :: OccursIgnoringCaseAt(subject, value, i)
  {
    if i: nat :| OccursAt(Lower(subject), Lower(value), i) {
      LowerSlice(subject, i, i + |value|);
      assert OccursIgnoringCaseAt(subject, value, i);
    }
    if i: nat :| OccursIgnoringCaseAt(subject, value, i) {
      LowerSlice(subject, i, i + |value|);
      assert OccursAt(Lower(subject), Lower(value), i);
    }
  }

  /** `sub` occurs in `s` starting at position `i`. */
  predicate OccursAt(s: string, sub: string, i: nat)
  {
    i + |sub| <= |s| && s[i..i + |sub|] == sub
  }

  /** `s.includes(sub)`. */
  function Includes(s: string, sub: string): (r: bool)
    ensures r <==> exists i: nat :: OccursAt(s, sub, i)
    decreases |s|
  {
    if OccursAt(s, sub, 0) then true
    else if |s| == 0 then false
    else
      var r := Includes(s[1..], sub);
      assert forall i: nat :: OccursAt(s[1..], sub, i) ==> OccursAt(s, sub, i + 1) by {
        forall i: nat | OccursAt(s[1..], sub, i) ensures OccursAt(s, sub, i + 1) {
          assert s[1..][i..i + |sub|] == s[i + 1..i + 1 + |sub|];
        }
      }
      assert forall i: nat :: OccursAt(s, sub, i) ==> i == 0 || OccursAt(s[1..], sub, i - 1) by {
        forall i: nat | OccursAt(s, sub, i) && i > 0 ensures OccursAt(s[1..], sub, i - 1) {
          assert s[1..][i - 1..i - 1 + |sub|] == s[i..i + |sub|];
        }
      }
      r
  }

  /** `record.subject.toLowerCase().includes(value.toString().toLowerCase())`. */
  predicate SubjectFilter(value: string, subject: string)
    ensures SubjectFilter(value, subject) <==> exists i: nat :: OccursIgnoringCaseAt(subject, value, i)
  {
    LowerOccurrence(value, subject);
    Includes(Lower(subject), Lower(value))
  }

  /** The search ignores letter case on both sides. */
  lemma SubjectFilterIgnoresCase(value: string, subject: string)
    ensures SubjectFilter(Lower(value), subject) == SubjectFilter(value, subject)
    ensures SubjectFilter(value, Lower(subject)) == SubjectFilter(value, subject)
  {
    LowerIdempotent(value);
    LowerIdempotent(subject);
  }

  /** A row whose subject holds the search text, as typed, is kept. */
  lemma SubjectFilterKeepsContaining(value: string, subject: string, i: nat)
    requires i + |value| <= |subject| && subject[i..i + |value|] == value
    ensures SubjectFilter(value, subject)
  {
    LowerSlice(subject, i, i + |value|);
    assert OccursAt(Lower(subject), Lower(value), i);
  }

  /** A row is kept only when its subject is at least as long as the search
      text. */
  lemma SubjectFilterLength(value: string, subject: string)
    requires SubjectFilter(value, subject)
    ensures |value| <= |subject|
  {
  }

  /** `setSelectedKeys(e.target.value ? [e.target.value] : [])`. */
  function FilterKeys(input: string): (keys: seq<string>)
    ensures |keys| <= 1
    ensures keys == [] <==> input == ""
    ensures forall k :: k in keys ==> k == input
  {
    if input != "" then [input] else []
  }

  /** `status?.name || 'Не указан'`: the status's name, or the placeholder
      when there is no status or its name is empty; never an empty cell. */
  function StatusCell(status: Option<Status>): (r: string)
    ensures r != ""
    ensures status.Some? && status.value.name != "" ==> r == status.value.name
    ensures status.None? || status.value.name == "" ==> r == "Не указан"
  {
    if status.Some? && status.value.name != "" then status.value.name else "Не указан"
  }

  /** `task.subject` on the row's `task` value: reading it throws (None)
      when the task is null or undefined. */
  function TaskCell(task: Value): (r: Option<Value>)
    ensures r.None? <==> Nullish(task)
    ensures task.Obj? ==> r == Some(Get(task.fields, "subject"))
  {
    Member(task, "subject")
  }

  /** An email row's task cell shows the subject of its task. */
  lemma TaskCellOfEmail(e: Email)
    ensures TaskCell(Get(EmailFields(e), "task")) == Some(Str(e.task.subject))
  {
    assert Get(EmailFields(e), "task") == TaskValue(e.task);
  }

  function Addresses(rs: seq<Recipient>): (r: seq<string>)
    ensures |r| == |rs| && forall i :: 0 <= i < |rs| ==> r[i] == rs[i].address
  {
    seq(|rs|, i requires 0 <= i < |rs| => rs[i].address)
  }

  /** `recipients.map(r => r.address).join(', ') || 'Нет получателей'`. */
  function RecipientsCell(rs: seq<Recipient>): (r: string)
    ensures r != ""
    ensures |rs| == 0 ==> r == "Нет получателей"
    ensures |rs| > 0 && rs[0].address != "" ==>
      |r| >= |rs[0].address| && r[..|rs[0].address|] == rs[0].address
  {
    var text := Join(Addresses(rs), ", ");
    JoinEmptyIff(Addresses(rs), ", ");
    JoinStartsWithFirst(Addresses(rs), ", ");
    if text != "" then text else "Нет получателей"
  }

  /** The recipients cell is never empty: it shows the placeholder exactly
      when there is no recipient or a single one with an empty address, and
      otherwise the addresses in list order, each two separated by ", ". */
  lemma RecipientsCellShape(rs: seq<Recipient>)
    ensures RecipientsCell(rs) != ""
    ensures |rs| == 0 || (|rs| == 1 && rs[0].address == "") ==> RecipientsCell(rs) == "Нет получателей"
    ensures !(|rs| == 0 || (|rs| == 1 && rs[0].address == "")) ==>
      RecipientsCell(rs) == Join(Addresses(rs), ", ")
    ensures |rs| > 0 && !(|rs| == 1 && rs[0].address == "") ==>
      |RecipientsCell(rs)| == SumLengths(Addresses(rs)) + 2 * (|rs| - 1)
  {
    JoinEmptyIff(Addresses(rs), ", ");
    if |rs| > 0 {
      JoinLength(Addresses(rs), ", ");
    }
  }
}
