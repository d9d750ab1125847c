/** The one real invariant of the front end: an email is read with its
    status, task and recipients embedded as objects, flattened into ids for
    the edit form, and resolved back into objects from the reference lists
    before it is written. */
module EmailForm {
  import opened Options
  import opened Json
  import opened Entities

  /** The reference lists the handlers hold: the current results of the
      status, task and recipient list queries. */
  datatype Refs = Refs(statuses: seq<Status>, tasks: seq<Task>, recipients: seq<Recipient>)

  /** `v?.id ?? null`: the id of an embedded object, or null. */
  function IdOrNull(v: Value): (r: Value)
    ensures v.Obj? && !Nullish(Get(v.fields, "id")) ==> r == Get(v.fields, "id")
    ensures !(v.Obj? && !Nullish(Get(v.fields, "id"))) ==> r == Null
  {
    Coalesce(OptionalMember(v, "id"), Null)
  }

  /** `items.map(r => r.id)`: reading `id` of a null or undefined element
      throws (None). */
  function MapIds(items: seq<Value>): (r: Option<seq<Value>>)
    ensures r.Some? <==> forall i :: 0 <= i < |items| ==> !Nullish(items[i])
    ensures r.Some? ==> |r.value| == |items|
    ensures r.Some? ==> forall i :: 0 <= i < |items| ==> r.value[i] == Member(items[i], "id").value
  {
    if |items| == 0 then Some([])
    else
      match Member(items[0], "id")
      case None => None
      case Some(id) =>
        match MapIds(items[1..])
        case None => None
        case Some(rest) => Some([id] + rest)
  }

  const ReferenceKeys: set<string> := {"status", "task", "recipient_list"}

  /** The values the edit form is filled with when it opens on a record: the
      record with its status and task replaced by their ids (null when
      absent) and its recipient list replaced by the recipients' ids, in
      order ([] when absent). None: the record's recipient list is neither
      absent nor an array of objects, and reading it throws. */
  function Prefill(record: Fields): (r: Option<Fields>)
    ensures r.None? <==>
      match Get(record, "recipient_list")
      case Arr(items) => exists i :: 0 <= i < |items| && Nullish(items[i])
      case v => !Nullish(v)
    ensures r.Some? ==> r.value.Keys == record.Keys + ReferenceKeys
    ensures r.Some? ==> forall k :: k in record && k !in ReferenceKeys ==> r.value[k] == record[k]
    ensures r.Some? ==> r.value["status"] == IdOrNull(Get(record, "status"))
    ensures r.Some? ==> r.value["task"] == IdOrNull(Get(record, "task"))
    ensures r.Some? && Nullish(Get(record, "recipient_list")) ==> r.value["recipient_list"] == Arr([])
    ensures r.Some? && Get(record, "recipient_list").Arr? ==>
      var items := Get(record, "recipient_list").items;
      && r.value["recipient_list"].Arr?
      && |r.value["recipient_list"].items| == |items|
      && forall i :: 0 <= i < |items| ==> r.value["recipient_list"].items[i] == Member(items[i], "id").value
  {
    var ids: Option<Value> :=
      match Get(record, "recipient_list")
      case Undefined => Some(Arr([]))
      case Null => Some(Arr([]))
      case Arr(items) => (match MapIds(items) case None => None case Some(xs) => Some(Arr(xs)))
      case _ => None;
    if ids.None? then None
    else Some(record + map[
      "status" := IdOrNull(Get(record, "status")),
      "task" := IdOrNull(Get(record, "task")),
      "recipient_list" := ids.value])
  }

  /** No id equals `id` (strict equality: a number id matches only the
      same number). */
  predicate Absent(ids: seq<int>, id: Value)
  {
    forall j :: 0 <= j < |ids| ==> Num(ids[j]) != id
  }

  /** Position `i` holds the first id that equals `id`. */
  predicate FirstWith(ids: seq<int>, id: Value, i: int)
  {
    0 <= i < |ids| && Num(ids[i]) == id && forall j :: 0 <= j < i ==> Num(ids[j]) != id
  }

  /** The position of the first id that equals `id`. */
  function FirstIndex(ids: seq<int>, id: Value): (r: Option<nat>)
    ensures r.Some? ==> FirstWith(ids, id, r.value)
    ensures r.None? <==> Absent(ids, id)
  {
    if |ids| == 0 then None
    else if Num(ids[0]) == id then Some(0)
    else match FirstIndex(ids[1..], id)
      case None => None
      case Some(i) =>
        assert forall j :: 1 <= j < |ids| ==> ids[j] == ids[1..][j - 1];
        Some(i + 1)
  }

  function StatusIds(ss: seq<Status>): (ids: seq<int>)
    ensures |ids| == |ss| && forall i :: 0 <= i < |ss| ==> ids[i] == ss[i].id
  {
    seq(|ss|, i requires 0 <= i < |ss| => ss[i].id)
  }

  function TaskIds(ts: seq<Task>): (ids: seq<int>)
    ensures |ids| == |ts| && forall i :: 0 <= i < |ts| ==> ids[i] == ts[i].id
  {
    seq(|ts|, i requires 0 <= i < |ts| => ts[i].id)
  }

  function RecipientIds(rs: seq<Recipient>): (ids: seq<int>)
    ensures |ids| == |rs| && forall i :: 0 <= i < |rs| ==> ids[i] == rs[i].id
  {
    seq(|rs|, i requires 0 <= i < |rs| => rs[i].id)
  }

  /** `statuses.find(s => s.id === id)`: the first status with that id, or
      undefined. */
  function FindStatus(statuses: seq<Status>, id: Value): (r: Value)
    ensures r == Undefined <==> Absent(StatusIds(statuses), id)
    ensures r != Undefined ==>
      exists i :: FirstWith(StatusIds(statuses), id, i) && r == StatusValue(statuses[i])
  {
    match FirstIndex(StatusIds(statuses), id)
    case None => Undefined
    case Some(i) => StatusValue(statuses[i])
  }

  /** `tasks.find(t => t.id === id)`. */
  function FindTask(tasks: seq<Task>, id: Value): (r: Value)
    ensures r == Undefined <==> Absent(TaskIds(tasks), id)
    ensures r != Undefined ==>
      exists i :: FirstWith(TaskIds(tasks), id, i) && r == TaskValue(tasks[i])
  {
    match FirstIndex(TaskIds(tasks), id)
    case None => Undefined
    case Some(i) => TaskValue(tasks[i])
  }

  /** `recipients.find(r => r.id === id)`. */
  function FindRecipient(recipients: seq<Recipient>, id: Value): (r: Value)
    ensures r == Undefined <==> Absent(RecipientIds(recipients), id)
    ensures r == Undefined || r.Obj?
    ensures r != Undefined ==>
      exists i :: FirstWith(RecipientIds(recipients), id, i) && r == RecipientValue(recipients[i])
  {
    match FirstIndex(RecipientIds(recipients), id)
    case None => Undefined
    case Some(i) => RecipientValue(recipients[i])
  }

  ghost predicate Listed(v: Value, recipients: seq<Recipient>)
  {
    exists j :: 0 <= j < |recipients| && v == RecipientValue(recipients[j])
  }

  /** `ids.map(id => recipients.find(r => r.id === id)).filter(Boolean)`:
      the recipients chosen by id, in the order of the ids; an id that
      matches no recipient is dropped. */
  function FindRecipients(ids: seq<Value>, recipients: seq<Recipient>): (r: seq<Value>)
    ensures |r| <= |ids|
    ensures forall k :: 0 <= k < |r| ==> Listed(r[k], recipients)
    ensures |r| == |ids| <==> forall i :: 0 <= i < |ids| ==> FindRecipient(recipients, ids[i]) != Undefined
    ensures |r| == |ids| ==> forall i :: 0 <= i < |ids| ==> r[i] == FindRecipient(recipients, ids[i])
  {
    if |ids| == 0 then []
    else
      var found := FindRecipient(recipients, ids[0]);
      var rest := FindRecipients(ids[1..], recipients);
      assert forall i :: 1 <= i < |ids| ==> ids[i] == ids[1..][i - 1];
      if Truthy(found) then [found] + rest else rest
  }

  /** A single id resolves to its recipient, or to nothing when no recipient
      has that id. */
  lemma FindRecipientsOne(id: Value, recipients: seq<Recipient>)
    ensures FindRecipients([id], recipients) ==
      if FindRecipient(recipients, id) == Undefined then [] else [FindRecipient(recipients, id)]
  {
    assert [id][1..] == [];
  }

  /** Resolving ids piece by piece gives the same list: the matches keep the
      order of their ids, and an unmatched id is dropped wherever it stands.
      With `FindRecipientsOne`, this fixes the result for every list of ids. */
  lemma {:induction false} FindRecipientsAppend(a: seq<Value>, b: seq<Value>, recipients: seq<Recipient>)
    ensures FindRecipients(a + b, recipients) == FindRecipients(a, recipients) + FindRecipients(b, recipients)
  {
    if |a| == 0 {
      assert a + b == b;
    } else {
      assert (a + b)[1..] == a[1..] + b;
      FindRecipientsAppend(a[1..], b, recipients);
    }
  }

  /** Dropping an id that matches no recipient does not change the result. */
  lemma FindRecipientsSkipsUnmatched(ids: seq<Value>, i: nat, recipients: seq<Recipient>)
    requires i < |ids| && FindRecipient(recipients, ids[i]) == Undefined
    ensures FindRecipients(ids, recipients) == FindRecipients(ids[..i] + ids[i + 1..], recipients)
  {
    assert ids == ids[..i] + [ids[i]] + ids[i + 1..];
    FindRecipientsAppend(ids[..i] + [ids[i]], ids[i + 1..], recipients);
    FindRecipientsAppend(ids[..i], [ids[i]], recipients);
    FindRecipientsOne(ids[i], recipients);
    FindRecipientsAppend(ids[..i], ids[i + 1..], recipients);
  }

  /** `id ? statuses.find(s => s.id === id) : null`: a falsy id (absent,
      null, 0, "") chooses no status. */
  function ResolveStatus(id: Value, statuses: seq<Status>): (r: Value)
    ensures !Truthy(id) ==> r == Null
    ensures Truthy(id) ==> r == FindStatus(statuses, id)
  {
    if Truthy(id) then FindStatus(statuses, id) else Null
  }

  /** `id ? tasks.find(t => t.id === id) : null`. */
  function ResolveTask(id: Value, tasks: seq<Task>): (r: Value)
    ensures !Truthy(id) ==> r == Null
    ensures Truthy(id) ==> r == FindTask(tasks, id)
  {
    if Truthy(id) then FindTask(tasks, id) else Null
  }

  /** `ids?.map(...).filter(Boolean) || null`: an absent or null list
      becomes null, an empty one stays empty (an array is truthy); None: the
      value is present but not an array, and `map` throws. */
  function ResolveRecipientList(v: Value, recipients: seq<Recipient>): (r: Option<Value>)
    ensures r.None? <==> !Nullish(v) && !v.Arr?
    ensures Nullish(v) ==> r == Some(Null)
    ensures v.Arr? ==> r == Some(Arr(FindRecipients(v.items, recipients)))
  {
    match v
    case Undefined => Some(Null)
    case Null => Some(Null)
    case Arr(ids) => Some(Arr(FindRecipients(ids, recipients)))
    case _ => None
  }

  /** The write payload built from the form's values: every property passes
      through, except the status, the task and the recipient list, which
      are resolved from ids into the listed objects. None: resolving the
      recipient list throws. */
  function ResolveEmail(values: Fields, refs: Refs): (r: Option<Fields>)
    ensures r.None? <==> var v := Get(values, "recipient_list"); !Nullish(v) && !v.Arr?
    ensures r.Some? ==> r.value.Keys == values.Keys + ReferenceKeys
    ensures r.Some? ==> forall k :: k in values && k !in ReferenceKeys ==> r.value[k] == values[k]
    ensures r.Some? ==> r.value["status"] == ResolveStatus(Get(values, "status"), refs.statuses)
    ensures r.Some? ==> r.value["task"] == ResolveTask(Get(values, "task"), refs.tasks)
    ensures r.Some? ==>
      Some(r.value["recipient_list"]) == ResolveRecipientList(Get(values, "recipient_list"), refs.recipients)
  {
    match ResolveRecipientList(Get(values, "recipient_list"), refs.recipients)
    case None => None
    case Some(list) =>
      Some(values + map[
        "status" := ResolveStatus(Get(values, "status"), refs.statuses),
        "task" := ResolveTask(Get(values, "task"), refs.tasks),
        "recipient_list" := list])
  }

  predicate UniqueIds(ids: seq<int>)
  {
    forall i, j :: 0 <= i < j < |ids| ==> ids[i] != ids[j]
  }

  /** What the round trip needs of an email and the reference lists: ids
      are unique in each list, the email's status (if any), task and
      recipients are all listed, and its status and task ids are not 0
      (a 0 id is falsy and resolves to null). */
  predicate Resolvable(e: Email, refs: Refs)
  {
    && UniqueIds(StatusIds(refs.statuses))
    && UniqueIds(TaskIds(refs.tasks))
    && UniqueIds(RecipientIds(refs.recipients))
    && (e.status.Some? ==> e.status.value in refs.statuses && e.status.value.id != 0)
    && e.task in refs.tasks && e.task.id != 0
    && forall r :: r in e.recipientList ==> r in refs.recipients
  }

  lemma FirstIndexOfListed(ids: seq<int>, i: nat)
    requires UniqueIds(ids) && i < |ids|
    ensures FirstIndex(ids, Num(ids[i])) == Some(i)
  {
    var r := FirstIndex(ids, Num(ids[i]));
    assert r.Some?;
    assert !(r.value < i) && !(i < r.value);
  }

  lemma FindListedRecipients(rs: seq<Recipient>, recipients: seq<Recipient>)
    requires UniqueIds(RecipientIds(recipients))
    requires forall r :: r in rs ==> r in recipients
    ensures FindRecipients(Prefilled(rs), recipients) == RecipientValues(rs)
  {
    var ids := Prefilled(rs);
    forall i | 0 <= i < |rs|
      ensures FindRecipient(recipients, ids[i]) == RecipientValue(rs[i])
    {
      assert rs[i] in rs;
      var j :| 0 <= j < |recipients| && recipients[j] == rs[i];
      FirstIndexOfListed(RecipientIds(recipients), j);
    }
  }

  /** The recipient ids the edit form holds for a list of recipients. */
  function Prefilled(rs: seq<Recipient>): (ids: seq<Value>)
    ensures |ids| == |rs| && forall i :: 0 <= i < |rs| ==> ids[i] == Num(rs[i].id)
  {
    seq(|rs|, i requires 0 <= i < |rs| => Num(rs[i].id))
  }

  /** The values the edit form holds for an email: its own properties, with
      the status, the task and the recipients given by id. */
  function EmailFormValues(e: Email): Fields
  {
    EmailFields(e) + FormIds(e)
  }

  function FormIds(e: Email): Fields
  {
    map["status" := (if e.status.Some? then Num(e.status.value.id) else Null),
        "task" := Num(e.task.id),
        "recipient_list" := Arr(Prefilled(e.recipientList))]
  }

  lemma RecipientIdsOf(rs: seq<Recipient>)
    ensures MapIds(RecipientValues(rs)) == Some(Prefilled(rs))
  {
    var items := RecipientValues(rs);
    var ids := MapIds(items);
    assert forall i :: 0 <= i < |items| ==> !Nullish(items[i]);
    assert forall i :: 0 <= i < |items| ==> ids.value[i] == Num(rs[i].id);
    assert ids.value == Prefilled(rs);
  }

  /** Opening the edit form on an email fills it with the email's ids. */
  lemma PrefillEmail(e: Email)
    ensures Prefill(EmailFields(e)) == Some(EmailFormValues(e))
  {
    var record := EmailFields(e);
    assert Get(record, "recipient_list") == Arr(RecipientValues(e.recipientList));
    RecipientIdsOf(e.recipientList);
    assert IdOrNull(Get(record, "status")) == (if e.status.Some? then Num(e.status.value.id) else Null);
    assert IdOrNull(Get(record, "task")) == Num(e.task.id);
  }

  /** Resolving the form values of an email gives back the email as it was
      read, when its references are all listed under unique, non-zero ids. */
  lemma ResolveEmailFormValues(e: Email, refs: Refs)
    requires Resolvable(e, refs)
    ensures ResolveEmail(EmailFormValues(e), refs) == Some(EmailFields(e))
  {
    var record := EmailFields(e);
    ResolvedReferences(e, refs);
    OverrideTwice(record, FormIds(e), References(e));
    OverrideSame(record, References(e));
  }

  /** The email's own status, task and recipient list, as objects. */
  function References(e: Email): Fields
  {
    map["status" := (if e.status.Some? then StatusValue(e.status.value) else Null),
        "task" := TaskValue(e.task),
        "recipient_list" := Arr(RecipientValues(e.recipientList))]
  }

  lemma ResolvedReferences(e: Email, refs: Refs)
    requires Resolvable(e, refs)
    ensures ResolveEmail(EmailFormValues(e), refs) == Some(EmailFormValues(e) + References(e))
  {
    ResolveIds(e, refs, EmailFormValues(e));
  }

  /** Any form values holding the email's ids resolve to the email's own
      status, task and recipients, whatever else they hold. */
  lemma ResolveIds(e: Email, refs: Refs, values: Fields)
    requires Resolvable(e, refs)
    requires forall k :: k in ReferenceKeys ==> k in values && values[k] == FormIds(e)[k]
    ensures ResolveEmail(values, refs) == Some(values + References(e))
  {
    var s, t, l := Get(values, "status"), Get(values, "task"), Get(values, "recipient_list");
    assert s == FormIds(e)["status"] && t == FormIds(e)["task"] && l == FormIds(e)["recipient_list"];
    ResolvedStatus(e, refs);
    ResolvedTask(e, refs);
    FindListedRecipients(e.recipientList, refs.recipients);
    assert ResolveStatus(s, refs.statuses) == References(e)["status"];
    assert ResolveTask(t, refs.tasks) == References(e)["task"];
    assert ResolveRecipientList(l, refs.recipients) == Some(References(e)["recipient_list"]);
  }

  /** The ids alone resolve to the email's own status, task and
      recipients. */
  lemma ResolveFormIds(e: Email, refs: Refs)
    requires Resolvable(e, refs)
    ensures ResolveEmail(FormIds(e), refs) == Some(References(e))
  {
    var ids := FormIds(e);
    assert ids.Keys == ReferenceKeys;
    ResolveIds(e, refs, ids);
    OverrideCovered(ids, References(e));
  }

  lemma OverrideCovered(a: Fields, b: Fields)
    requires a.Keys <= b.Keys
    ensures a + b == b
  {
  }

  lemma ResolvedStatus(e: Email, refs: Refs)
    requires Resolvable(e, refs)
    ensures e.status.Some? ==> FindStatus(refs.statuses, Num(e.status.value.id)) == StatusValue(e.status.value)
  {
    if e.status.Some? {
      var j :| 0 <= j < |refs.statuses| && refs.statuses[j] == e.status.value;
      FirstIndexOfListed(StatusIds(refs.statuses), j);
    }
  }

  lemma ResolvedTask(e: Email, refs: Refs)
    requires Resolvable(e, refs)
    ensures FindTask(refs.tasks, Num(e.task.id)) == TaskValue(e.task)
  {
    var j :| 0 <= j < |refs.tasks| && refs.tasks[j] == e.task;
    FirstIndexOfListed(TaskIds(refs.tasks), j);
  }

  lemma OverrideTwice(m: Fields, a: Fields, b: Fields)
    requires a.Keys <= b.Keys
    ensures (m + a) + b == m + b
  {
  }

  lemma OverrideSame(m: Fields, own: Fields)
    requires forall k :: k in own ==> k in m && m[k] == own[k]
    ensures m + own == m
  {
  }

  /** Round trip, read then write: resolving the values an email prefills
      the edit form with gives back the email exactly as it was read. */
  lemma EditRoundTrip(e: Email, refs: Refs)
    requires Resolvable(e, refs)
    ensures Prefill(EmailFields(e)).Some?
    ensures ResolveEmail(Prefill(EmailFields(e)).value, refs) == Some(EmailFields(e))
  {
    PrefillEmail(e);
    ResolveEmailFormValues(e, refs);
  }

  /** A status choice the form can hold: none (null), or the non-zero id of
      a listed status. */
  predicate ChosenStatus(v: Value, statuses: seq<Status>)
  {
    v == Null || (v.Num? && v.n != 0 && FindStatus(statuses, v) != Undefined)
  }

  predicate ChosenTask(v: Value, tasks: seq<Task>)
  {
    v == Null || (v.Num? && v.n != 0 && FindTask(tasks, v) != Undefined)
  }

  lemma StatusIdBack(v: Value, statuses: seq<Status>)
    requires ChosenStatus(v, statuses)
    ensures IdOrNull(ResolveStatus(v, statuses)) == v
  {
    if v.Num? {
      var i :| 0 <= i < |statuses| && Num(statuses[i].id) == v && FindStatus(statuses, v) == StatusValue(statuses[i]);
      assert Get(StatusFields(statuses[i]), "id") == v;
    }
  }

  lemma TaskIdBack(v: Value, tasks: seq<Task>)
    requires ChosenTask(v, tasks)
    ensures IdOrNull(ResolveTask(v, tasks)) == v
  {
    if v.Num? {
      var i :| 0 <= i < |tasks| && Num(tasks[i].id) == v && FindTask(tasks, v) == TaskValue(tasks[i]);
      assert Get(TaskFields(tasks[i]), "id") == v;
    }
  }

  lemma RecipientIdsBack(ids: seq<Value>, recipients: seq<Recipient>)
    requires forall i :: 0 <= i < |ids| ==> FindRecipient(recipients, ids[i]) != Undefined
    ensures MapIds(FindRecipients(ids, recipients)) == Some(ids)
  {
    var found := FindRecipients(ids, recipients);
    var r := MapIds(found);
    forall i | 0 <= i < |ids|
      ensures !Nullish(found[i]) && Member(found[i], "id").value == ids[i]
    {
      var j :| 0 <= j < |recipients| && Num(recipients[j].id) == ids[i]
        && FindRecipient(recipients, ids[i]) == RecipientValue(recipients[j]);
      assert Get(RecipientFields(recipients[j]), "id") == ids[i];
    }
    assert r.value == ids;
  }

  /** Round trip, write then read: form values whose status and task are
      null or listed non-zero ids, and whose recipients are all listed,
      resolve into a payload that prefills the form with the same values. */
  lemma FormRoundTrip(values: Fields, refs: Refs)
    requires ReferenceKeys <= values.Keys
    requires ChosenStatus(values["status"], refs.statuses) && ChosenTask(values["task"], refs.tasks)
    requires values["recipient_list"].Arr?
    requires forall i :: 0 <= i < |values["recipient_list"].items| ==>
      FindRecipient(refs.recipients, values["recipient_list"].items[i]) != Undefined
    ensures ResolveEmail(values, refs).Some?
    ensures Prefill(ResolveEmail(values, refs).value) == Some(values)
  {
    var ids := values["recipient_list"].items;
    StatusIdBack(values["status"], refs.statuses);
    TaskIdBack(values["task"], refs.tasks);
    RecipientIdsBack(ids, refs.recipients);
    PrefillBack(values, ResolveEmail(values, refs).value, FindRecipients(ids, refs.recipients));
  }

  lemma PrefillBack(values: Fields, payload: Fields, found: seq<Value>)
    requires ReferenceKeys <= values.Keys && payload.Keys == values.Keys
    requires forall k :: k in values && k !in ReferenceKeys ==> payload[k] == values[k]
    requires IdOrNull(payload["status"]) == values["status"]
    requires IdOrNull(payload["task"]) == values["task"]
    requires payload["recipient_list"] == Arr(found)
    requires values["recipient_list"].Arr? && MapIds(found) == Some(values["recipient_list"].items)
    ensures Prefill(payload) == Some(values)
  {
    assert Get(payload, "recipient_list") == Arr(found);
    var p := Prefill(payload);
    assert p.Some?;
    assert p.value["recipient_list"] == values["recipient_list"];
    assert p.value.Keys == values.Keys;
    forall k | k in values
      ensures p.value[k] == values[k]
    {
      if k !in ReferenceKeys {
        assert p.value[k] == payload[k];
      }
    }
    assert p.value == values;
  }
}
