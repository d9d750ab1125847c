/** The `useHandlers` hook: the admin screen's state (the active table, the
    two modals, the type of record being created, the record being edited
    and the edit form's values) and the handlers that open the create form
    and create, update and delete records.

    Each handler is specified by a function from the state before it to an
    `Outcome`: the state after it and its effects. The back end's answer to
    the mutation a handler sends is an input (`backendOk`), and so are the
    values the create form's validation hands over (`validated`, None when
    validation fails) and the reference lists (`refs`). */
module Handlers {
  import opened Options
  import opened Json
  import opened Entities
  import opened Http
  import opened Routes
  import opened StatusApi
  import opened TaskApi
  import opened EmailApi
  import opened RecipientApi
  import opened EmailForm
  import opened Outcomes

  datatype State = State(
    activeTable: Option<string>,
    isModalVisible: bool,
    isCreateModalVisible: bool,
    newItemType: Option<string>,
    currentRecord: Option<Fields>,
    editForm: Fields)

  datatype Outcome = Outcome(state: State, effects: Effects)

  const Initial: State := State(None, false, false, None, None, map[])

  const DeleteDone: string := "Данные успешно удалены"
  const DeleteFailed: string := "Ошибка при удалении записи"
  const CreateFailed: string := "Ошибка при создании записи"
  const UpdateDone: string := "Данные успешно обновлены"
  const UpdateFailed: string := "Ошибка при обновлении данных"

  /** The `newItemType` that creates a record of a resource. */
  function ItemType(r: Resource): string
  {
    match r
    case Statuses => "status"
    case Tasks => "task"
    case Emails => "email"
    case Recipients => "recipient"
  }

  /** The resource an item type creates, if any. */
  function ResourceOfType(t: string): (r: Option<Resource>)
    ensures r.Some? ==> ItemType(r.value) == t
    ensures r.None? ==> forall x :: ItemType(x) != t
  {
    if t == "status" then Some(Statuses)
    else if t == "task" then Some(Tasks)
    else if t == "email" then Some(Emails)
    else if t == "recipient" then Some(Recipients)
    else None
  }

  function CreatedMessage(r: Resource): string
  {
    match r
    case Recipients => "Пользователь успешно создан"
    case Statuses => "Статус успешно создан"
    case Tasks => "Задача успешно создана"
    case Emails => "Сообщение успешно создано"
  }

  /** What is sent to create or update a record: the form's values, except
      for an email, whose references are resolved first (None: resolving
      throws). */
  function Payload(r: Resource, values: Fields, refs: Refs): (p: Option<Fields>)
    ensures p.None? <==> r == Emails && var v := Get(values, "recipient_list"); !Nullish(v) && !v.Arr?
    ensures r != Emails ==> p == Some(values)
    ensures p.Some? ==> p.value.Keys == values.Keys + (if r == Emails then ReferenceKeys else {})
    ensures p.Some? ==> forall k :: k in values && k !in ReferenceKeys ==> p.value[k] == values[k]
  {
    if r == Emails then ResolveEmail(values, refs) else Some(values)
  }

  /** `currentRecord.id`: reading it with no current record throws. */
  function IdOf(record: Option<Fields>): (r: Option<Value>)
    ensures r.None? <==> record.None?
    ensures r.Some? ==> r.value == Get(record.value, "id")
  {
    if record.None? then None else Some(Get(record.value, "id"))
  }

  /** The `newItemType` chain of `showCreateModal`. */
  function NewItemType(activeTable: Option<string>, current: Option<string>): (r: Option<string>)
    ensures activeTable.Some? && TableOf(activeTable.value).Some? ==>
      r == Some(ItemType(TableOf(activeTable.value).value))
    ensures !(activeTable.Some? && TableOf(activeTable.value).Some?) ==> r == current
  {
    if activeTable == Some("statuses") then Some("status")
    else if activeTable == Some("tasks") then Some("task")
    else if activeTable == Some("emails") then Some("email")
    else if activeTable == Some("recipients") then Some("recipient")
    else current
  }

  /** `showCreateModal`: pick the item type of the active table, open the
      create modal and clear the create form. */
  function ShowCreateStep(s: State): (o: Outcome)
    ensures o.state.isCreateModalVisible && o.effects == NoEffects.(createFormReset := true)
    ensures s.activeTable.Some? && TableOf(s.activeTable.value).Some? ==>
      o.state.newItemType.Some? && ResourceOfType(o.state.newItemType.value) == TableOf(s.activeTable.value)
    ensures !(s.activeTable.Some? && TableOf(s.activeTable.value).Some?) ==> o.state.newItemType == s.newItemType
    ensures o.state.(newItemType := s.newItemType, isCreateModalVisible := s.isCreateModalVisible) == s
  {
    Outcome(s.(newItemType := NewItemType(s.activeTable, s.newItemType), isCreateModalVisible := true),
            NoEffects.(createFormReset := true))
  }

  /** The `switch (newItemType)` of `handleCreate`. */
  function CreateCall(newItemType: Option<string>, values: Fields, refs: Refs): (d: Dispatch)
    ensures d.NoCall? <==> newItemType.None? || ResourceOfType(newItemType.value).None?
    ensures d.Throws? <==> newItemType == Some("email") && ResolveEmail(values, refs).None?
    ensures d.Call? ==>
      var r := ResourceOfType(newItemType.value).value;
      && Payload(r, values, refs).Some?
      && d.mutation == Mutation(ExpectedRequest(r, Create, Undefined, Payload(r, values, refs).value),
                                ExpectedTags(r, Create, Undefined, None))
  {
    if newItemType == Some("recipient") then Call(CreateRecipient(values))
    else if newItemType == Some("status") then Call(CreateStatus(values))
    else if newItemType == Some("task") then Call(CreateTask(values))
    else if newItemType == Some("email") then
      match ResolveEmail(values, refs)
      case None => Throws
      case Some(full) => Call(CreateEmail(full))
    else NoCall
  }

  /** `handleMutationError`: report, change nothing. */
  function Failed(s: State, sent: Option<Mutation>, text: string): Outcome
  {
    Outcome(s, Effects(sent, {}, Some(Failure(text)), false))
  }

  /** Whether `handleCreate` ends in its `catch`: validation fails, resolving
      an email throws, or the back end refuses the record. */
  predicate CreateFails(s: State, validated: Option<Fields>, refs: Refs, backendOk: bool)
  {
    validated.None? ||
    (var d := CreateCall(s.newItemType, validated.value, refs); d.Throws? || (d.Call? && !backendOk))
  }

  /** `handleCreate`: on failure an error is reported and the create modal
      stays as it was; otherwise the create modal closes, the create form is
      cleared and the active table's list (only) is refetched. */
  function CreateStep(s: State, validated: Option<Fields>, refs: Refs, backendOk: bool): (o: Outcome)
    ensures CreateFails(s, validated, refs, backendOk) ==>
      o.state == s && o.effects.refetched == {} && !o.effects.createFormReset
      && o.effects.notice == Some(Failure(CreateFailed))
    ensures !CreateFails(s, validated, refs, backendOk) ==>
      o.state == s.(isCreateModalVisible := false) && o.effects.createFormReset
      && o.effects.refetched == ActiveRefetch(s.activeTable, AllResources)
      && (o.effects.notice.Some? <==> o.effects.sent.Some?)
    ensures o.effects.sent.Some? <==> validated.Some? && CreateCall(s.newItemType, validated.value, refs).Call?
    ensures o.effects.sent.Some? ==> o.effects.sent.value == CreateCall(s.newItemType, validated.value, refs).mutation
  {
    if validated.None? then Failed(s, None, CreateFailed)
    else
      match CreateCall(s.newItemType, validated.value, refs)
      case Throws => Failed(s, None, CreateFailed)
      case Call(m) =>
        if !backendOk then Failed(s, Some(m), CreateFailed)
        else
          var text := CreatedMessage(ResourceOfType(s.newItemType.value).value);
          Outcome(s.(isCreateModalVisible := false),
                  Effects(Some(m), ActiveRefetch(s.activeTable, AllResources), Some(Success(text)), true))
      case NoCall =>
        Outcome(s.(isCreateModalVisible := false),
                Effects(None, ActiveRefetch(s.activeTable, AllResources), None, true))
  }

  /** The `switch (activeTable)` of `handleDelete`. */
  function DeleteCall(activeTable: Option<string>, record: Option<Fields>): (d: Dispatch)
    ensures d.NoCall? <==> activeTable.None? || TableOf(activeTable.value).None?
    ensures d.Throws? <==> !d.NoCall? && record.None?
    ensures d.Call? ==>
      var r, id := TableOf(activeTable.value).value, Get(record.value, "id");
      d.mutation == Mutation(ExpectedRequest(r, Delete, id, map[]), ExpectedTags(r, Delete, id, None))
  {
    if activeTable == Some("recipients") then
      (match IdOf(record) case None => Throws case Some(id) => Call(DeleteRecipient(id)))
    else if activeTable == Some("statuses") then
      (match IdOf(record) case None => Throws case Some(id) => Call(DeleteStatus(id)))
    else if activeTable == Some("tasks") then
      (match IdOf(record) case None => Throws case Some(id) => Call(DeleteTask(id)))
    else if activeTable == Some("emails") then
      (match IdOf(record) case None => Throws case Some(id) => Call(DeleteEmail(id)))
    else NoCall
  }

  /** `handleDelete`: on failure an error is reported and the edit modal
      stays open; otherwise it closes and the active table's list is
      refetched, even when no table matched and nothing was sent. */
  function DeleteStep(s: State, backendOk: bool): (o: Outcome)
    ensures var d := DeleteCall(s.activeTable, s.currentRecord);
      d.Throws? || (d.Call? && !backendOk) ==>
        o.state == s && o.effects.refetched == {} && o.effects.notice == Some(Failure(DeleteFailed))
    ensures var d := DeleteCall(s.activeTable, s.currentRecord);
      !(d.Throws? || (d.Call? && !backendOk)) ==>
        o.state == s.(isModalVisible := false) && o.effects.notice == Some(Success(DeleteDone))
        && o.effects.refetched == ActiveRefetch(s.activeTable, AllResources)
    ensures var d := DeleteCall(s.activeTable, s.currentRecord);
      o.effects.sent == (if d.Call? then Some(d.mutation) else None)
    ensures !o.effects.createFormReset
  {
    match DeleteCall(s.activeTable, s.currentRecord)
    case Throws => Failed(s, None, DeleteFailed)
    case Call(m) =>
      if backendOk then Deleted(s, Some(m)) else Failed(s, Some(m), DeleteFailed)
    case NoCall => Deleted(s, None)
  }

  function Deleted(s: State, sent: Option<Mutation>): Outcome
  {
    Outcome(s.(isModalVisible := false),
            Effects(sent, ActiveRefetch(s.activeTable, AllResources), Some(Success(DeleteDone)), false))
  }

  /** The `switch (activeTable)` of `handleSubmit`, with a current record. */
  function UpdateCall(activeTable: Option<string>, record: Fields, values: Fields, refs: Refs): (d: Dispatch)
    ensures d.NoCall? <==> activeTable.None? || TableOf(activeTable.value).None?
    ensures d.Throws? <==> activeTable == Some("emails") && ResolveEmail(values, refs).None?
    ensures d.Call? ==>
      var r := TableOf(activeTable.value).value;
      && Payload(r, values, refs).Some?
      && var arg := UpdateArgument(record, Payload(r, values, refs).value);
      d.mutation == Mutation(ExpectedRequest(r, Update, Get(arg, "id"), arg), ExpectedTags(r, Update, Get(arg, "id"), None))
  {
    if activeTable == Some("recipients") then Call(UpdateRecipient(UpdateArgument(record, values)))
    else if activeTable == Some("statuses") then Call(UpdateStatus(UpdateArgument(record, values)))
    else if activeTable == Some("tasks") then Call(UpdateTask(UpdateArgument(record, values)))
    else if activeTable == Some("emails") then
      match ResolveEmail(values, refs)
      case None => Throws
      case Some(full) => Call(UpdateEmail(UpdateArgument(record, full)))
    else NoCall
  }

  /** The lists `handleSubmit` refetches after a success: all four after an
      email update, otherwise the active table's own. */
  function UpdateRefetch(activeTable: Option<string>): (r: set<Resource>)
    ensures activeTable == Some("emails") ==> r == AllResources
    ensures activeTable != Some("emails") ==> r == ActiveRefetch(activeTable, AllResources) && |r| <= 1
  {
    if activeTable == Some("emails") then AllResources else ActiveRefetch(activeTable, AllResources)
  }

  /** `handleSubmit(values)`: with no current record nothing happens; on
      failure an error is reported and the edit modal stays open; otherwise
      it closes and the lists are refetched. */
  function SubmitStep(s: State, values: Fields, refs: Refs, backendOk: bool): (o: Outcome)
    ensures s.currentRecord.None? ==> o == Outcome(s, NoEffects)
    ensures s.currentRecord.Some? ==>
      var d := UpdateCall(s.activeTable, s.currentRecord.value, values, refs);
      && o.effects.sent == (if d.Call? then Some(d.mutation) else None)
      && (d.Throws? || (d.Call? && !backendOk) ==>
            o.state == s && o.effects.refetched == {} && o.effects.notice == Some(Failure(UpdateFailed)))
      && (!(d.Throws? || (d.Call? && !backendOk)) ==>
            o.state == s.(isModalVisible := false) && o.effects.notice == Some(Success(UpdateDone))
            && o.effects.refetched == UpdateRefetch(s.activeTable))
    ensures !o.effects.createFormReset
  {
    if s.currentRecord.None? then Outcome(s, NoEffects)
    else
      match UpdateCall(s.activeTable, s.currentRecord.value, values, refs)
      case Throws => Failed(s, None, UpdateFailed)
      case Call(m) => if backendOk then Updated(s, Some(m)) else Failed(s, Some(m), UpdateFailed)
      case NoCall => Updated(s, None)
  }

  function Updated(s: State, sent: Option<Mutation>): Outcome
  {
    Outcome(s.(isModalVisible := false),
            Effects(sent, UpdateRefetch(s.activeTable), Some(Success(UpdateDone)), false))
  }

  /** The edit form after the prefill effect: while the edit modal is open
      on a record, the record's prefilled values are written over the form;
      otherwise, or when the record cannot be prefilled, the form stays. */
  function Synced(s: State): (form: Fields)
    ensures !(s.isModalVisible && s.currentRecord.Some?) ==> form == s.editForm
    ensures s.isModalVisible && s.currentRecord.Some? && Prefill(s.currentRecord.value).Some? ==>
      form == s.editForm + Prefill(s.currentRecord.value).value
  {
    if s.isModalVisible && s.currentRecord.Some? then
      match Prefill(s.currentRecord.value)
      case None => s.editForm
      case Some(values) => s.editForm + values
    else s.editForm
  }

  /** Opening the create form on a table, then creating a record that the
      back end accepts, posts the record to that table's collection and
      refetches that table's list alone. */
  lemma ShowCreateThenCreate(r: Resource, s: State, values: Fields, refs: Refs)
    requires s.activeTable == Some(CollectionName(r))
    requires Payload(r, values, refs).Some?
    ensures
      var o := CreateStep(ShowCreateStep(s).state, Some(values), refs, true);
      && o.effects.sent == Some(Mutation(ExpectedRequest(r, Create, Undefined, Payload(r, values, refs).value),
                                         ExpectedTags(r, Create, Undefined, None)))
      && o.effects.refetched == {r}
      && o.effects.notice == Some(Success(CreatedMessage(r)))
      && !o.state.isCreateModalVisible
  {
    TableOfCollectionName(r);
    var t := ShowCreateStep(s).state;
    assert t.newItemType == Some(ItemType(r));
    assert ResourceOfType(ItemType(r)) == Some(r);
  }

  /** A status edit sends no body: the update reads the argument's `data`,
      which the edit form never fills. */
  lemma StatusEditSendsNoBody(s: State, values: Fields, refs: Refs, backendOk: bool)
    requires s.activeTable == Some("statuses") && s.currentRecord.Some?
    requires "data" !in values
    ensures
      var o := SubmitStep(s, values, refs, backendOk);
      o.effects.sent.Some? && o.effects.sent.value.request.verb == PATCH && o.effects.sent.value.request.body == Undefined
  {
  }

  /** Deleting the record in view sends DELETE to that record's own URL (the
      collection, then the decimal id) and, on success, refetches that
      table's list. */
  lemma DeleteTargetsCurrentRecord(r: Resource, s: State, id: int)
    requires s.activeTable == Some(CollectionName(r))
    requires s.currentRecord.Some? && Get(s.currentRecord.value, "id") == Num(id)
    ensures
      var o := DeleteStep(s, true);
      && o.effects.sent.Some?
      && o.effects.sent.value.request.verb == DELETE
      && Parse(o.effects.sent.value.request.url) == Some(Item(CollectionName(r), IntToString(id), ItemSlash(r, Delete)))
      && o.effects.refetched == {r}
      && !o.state.isModalVisible
  {
    TableOfCollectionName(r);
    RouteUrlParses(r, Delete, id, map[]);
  }

  /** Round trip through the screen: open an email for editing, leave its
      fields as they were and save. The update goes to that email's URL
      and writes back exactly the status, task and recipients it was read
      with, and every list is refetched. */
  lemma UnchangedEmailEdit(e: Email, refs: Refs, s: State)
    requires Resolvable(e, refs)
    requires s.activeTable == Some("emails") && s.isModalVisible && s.currentRecord == Some(EmailFields(e))
    ensures
      var values := Restrict(Synced(s), ReferenceKeys);
      var o := SubmitStep(s.(editForm := Synced(s)), values, refs, true);
      && o.effects.sent.Some?
      && o.effects.sent.value.request == Request(PATCH, "emails/" + IntToString(e.id) + "/", Obj(References(e)))
      && o.effects.refetched == AllResources
      && !o.state.isModalVisible
  {
    SyncedEmailIds(e, s);
    EmailIdsUpdate(e, refs);
  }

  /** Saving an email's ids sends that email's own references to its URL. */
  lemma EmailIdsUpdate(e: Email, refs: Refs)
    requires Resolvable(e, refs)
    ensures UpdateCall(Some("emails"), EmailFields(e), FormIds(e), refs)
      == Call(UpdateEmail(UpdateArgument(EmailFields(e), References(e))))
    ensures UpdateEmail(UpdateArgument(EmailFields(e), References(e))).request
      == Request(PATCH, "emails/" + IntToString(e.id) + "/", Obj(References(e)))
  {
    ResolveFormIds(e, refs);
    var arg := UpdateArgument(EmailFields(e), References(e));
    assert arg - {"id"} == References(e);
    assert Get(arg, "id") == Num(e.id);
  }

  /** The reference fields of the edit form, once it is prefilled from an
      email, hold that email's ids. */
  lemma SyncedEmailIds(e: Email, s: State)
    requires s.isModalVisible && s.currentRecord == Some(EmailFields(e))
    ensures Restrict(Synced(s), ReferenceKeys) == FormIds(e)
  {
    PrefillEmail(e);
    assert Synced(s) == s.editForm + EmailFormValues(e);
  }

  class Screen {
    var activeTable: Option<string>
    var isModalVisible: bool
    var isCreateModalVisible: bool
    var newItemType: Option<string>
    var currentRecord: Option<Fields>
    var editForm: Fields

    function Snapshot(): State
      reads this
    {
      State(activeTable, isModalVisible, isCreateModalVisible, newItemType, currentRecord, editForm)
    }

    constructor()
      ensures Snapshot() == Initial
    {
      activeTable := None;
      isModalVisible := false;
      isCreateModalVisible := false;
      newItemType := None;
      currentRecord := None;
      editForm := map[];
    }

    method SetActiveTable(table: Option<string>)
      modifies this
      ensures Snapshot() == old(Snapshot()).(activeTable := table)
    {
      activeTable := table;
    }

    method SetModalVisible(visible: bool)
      modifies this
      ensures Snapshot() == old(Snapshot()).(isModalVisible := visible)
    {
      isModalVisible := visible;
    }

    method SetCreateModalVisible(visible: bool)
      modifies this
      ensures Snapshot() == old(Snapshot()).(isCreateModalVisible := visible)
    {
      isCreateModalVisible := visible;
    }

    method SetNewItemType(t: Option<string>)
      modifies this
      ensures Snapshot() == old(Snapshot()).(newItemType := t)
    {
      newItemType := t;
    }

    method SetCurrentRecord(record: Option<Fields>)
      modifies this
      ensures Snapshot() == old(Snapshot()).(currentRecord := record)
    {
      currentRecord := record;
    }

    /** The prefill effect, run after the modal or the record changes. */
    method SyncEditForm()
      modifies this
      ensures Snapshot() == old(Snapshot()).(editForm := Synced(old(Snapshot())))
    {
      if isModalVisible && currentRecord.Some? {
        var values := Prefill(currentRecord.value);
        if values.Some? {
          editForm := editForm + values.value;
        }
      }
    }

    method ShowCreateModal() returns (ghost fx: Effects)
      modifies this
      ensures Snapshot() == ShowCreateStep(old(Snapshot())).state
      ensures fx == ShowCreateStep(old(Snapshot())).effects
    {
      if activeTable == Some("statuses") { newItemType := Some("status"); }
      if activeTable == Some("tasks") { newItemType := Some("task"); }
      if activeTable == Some("emails") { newItemType := Some("email"); }
      if activeTable == Some("recipients") { newItemType := Some("recipient"); }
      isCreateModalVisible := true;
      fx := NoEffects.(createFormReset := true);
    }

    /** The refetch chain shared by the three handlers. */
    method RefetchActive() returns (refetched: set<Resource>)
      ensures refetched == ActiveRefetch(activeTable, AllResources)
    {
      refetched := {};
      if activeTable == Some("statuses") { refetched := refetched + {Statuses}; }
      if activeTable == Some("tasks") { refetched := refetched + {Tasks}; }
      if activeTable == Some("emails") { refetched := refetched + {Emails}; }
      if activeTable == Some("recipients") { refetched := refetched + {Recipients}; }
    }

    method HandleDelete(backendOk: bool) returns (ghost fx: Effects)
      modifies this
      ensures Snapshot() == DeleteStep(old(Snapshot()), backendOk).state
      ensures fx == DeleteStep(old(Snapshot()), backendOk).effects
    {
      var sent: Option<Mutation> := None;
      if activeTable == Some("recipients") || activeTable == Some("statuses")
        || activeTable == Some("tasks") || activeTable == Some("emails")
      {
        if currentRecord.None? {
          fx := Effects(None, {}, Some(Failure(DeleteFailed)), false);
          return;
        }
        var id := Get(currentRecord.value, "id");
        var m :=
          if activeTable == Some("recipients") then DeleteRecipient(id)
          else if activeTable == Some("statuses") then DeleteStatus(id)
          else if activeTable == Some("tasks") then DeleteTask(id)
          else DeleteEmail(id);
        sent := Some(m);
        if !backendOk {
          fx := Effects(sent, {}, Some(Failure(DeleteFailed)), false);
          return;
        }
      }
      var refetched := RefetchActive();
      isModalVisible := false;
      fx := Effects(sent, refetched, Some(Success(DeleteDone)), false);
    }

    method HandleCreate(validated: Option<Fields>, refs: Refs, backendOk: bool) returns (ghost fx: Effects)
      modifies this
      ensures Snapshot() == CreateStep(old(Snapshot()), validated, refs, backendOk).state
      ensures fx == CreateStep(old(Snapshot()), validated, refs, backendOk).effects
    {
      if validated.None? {
        fx := Effects(None, {}, Some(Failure(CreateFailed)), false);
        return;
      }
      var values := validated.value;
      var sent: Option<Mutation> := None;
      var notice: Option<Notice> := None;
      if newItemType == Some("recipient") {
        sent, notice := Some(CreateRecipient(values)), Some(Success("Пользователь успешно создан"));
      } else if newItemType == Some("status") {
        sent, notice := Some(CreateStatus(values)), Some(Success("Статус успешно создан"));
      } else if newItemType == Some("task") {
        sent, notice := Some(CreateTask(values)), Some(Success("Задача успешно создана"));
      } else if newItemType == Some("email") {
        var full := ResolveEmail(values, refs);
        if full.None? {
          fx := Effects(None, {}, Some(Failure(CreateFailed)), false);
          return;
        }
        sent, notice := Some(CreateEmail(full.value)), Some(Success("Сообщение успешно создано"));
      }
      if sent.Some? && !backendOk {
        fx := Effects(sent, {}, Some(Failure(CreateFailed)), false);
        return;
      }
      isCreateModalVisible := false;
      var refetched := RefetchActive();
      fx := Effects(sent, refetched, notice, true);
    }

    method HandleSubmit(values: Fields, refs: Refs, backendOk: bool) returns (ghost fx: Effects)
      modifies this
      ensures Snapshot() == SubmitStep(old(Snapshot()), values, refs, backendOk).state
      ensures fx == SubmitStep(old(Snapshot()), values, refs, backendOk).effects
    {
      if currentRecord.None? {
        fx := NoEffects;
        return;
      }
      var record := currentRecord.value;
      var sent: Option<Mutation> := None;
      if activeTable == Some("recipients") {
        sent := Some(UpdateRecipient(map["id" := Get(record, "id")] + values));
      } else if activeTable == Some("statuses") {
        sent := Some(UpdateStatus(map["id" := Get(record, "id")] + values));
      } else if activeTable == Some("tasks") {
        sent := Some(UpdateTask(map["id" := Get(record, "id")] + values));
      } else if activeTable == Some("emails") {
        var full := ResolveEmail(values, refs);
        if full.None? {
          fx := Effects(None, {}, Some(Failure(UpdateFailed)), false);
          return;
        }
        sent := Some(UpdateEmail(map["id" := Get(record, "id")] + full.value));
      }
      if sent.Some? && !backendOk {
        fx := Effects(sent, {}, Some(Failure(UpdateFailed)), false);
        return;
      }
      isModalVisible := false;
      var refetched := RefetchActive();
      if activeTable == Some("emails") {
        refetched := refetched + {Tasks, Recipients, Statuses};
      }
      fx := Effects(sent, refetched, Some(Success(UpdateDone)), false);
    }
  }
}
