/** What the two orchestrators do besides changing their own state: the
    mutation a handler sends, the lists it refetches, the toast it shows and
    whether it clears the create form. The back end's answer is an input
    (`backendOk`), and these effects are recorded rather than performed. */
module Outcomes {
  import opened Options
  import opened Json
  import opened Http
  import opened Routes

  /** `message.success(text)` or `message.error(text)`. */
  datatype Notice = Success(text: string) | Failure(text: string)

  datatype Effects = Effects(
    sent: Option<Mutation>,
    refetched: set<Resource>,
    notice: Option<Notice>,
    createFormReset: bool)

  const NoEffects: Effects := Effects(None, {}, None, false)

  /** What a handler's `switch` picks: no case matches, one mutation, or a
      TypeError thrown while its argument is built (caught by the handler's
      `catch`). */
  datatype Dispatch = NoCall | Call(mutation: Mutation) | Throws

  const AllResources: set<Resource> := {Statuses, Tasks, Emails, Recipients}

  /** The resource a table name (`activeTable`) stands for. */
  function TableOf(name: string): (r: Option<Resource>)
    ensures r.Some? <==> name in {"statuses", "tasks", "emails", "recipients"}
    ensures r.Some? ==> CollectionName(r.value) == name
  {
    if name == "statuses" then Some(Statuses)
    else if name == "tasks" then Some(Tasks)
    else if name == "emails" then Some(Emails)
    else if name == "recipients" then Some(Recipients)
    else None
  }

  /** A table is named after its resource's collection, and no two
      resources share a table. */
  lemma TableOfCollectionName(r: Resource)
    ensures TableOf(CollectionName(r)) == Some(r)
  {
  }

  /** The chain `if (activeTable === 'statuses') refetchStatuses(); ...`
      over the lists a component can refetch (`refetchable`): at most the
      active table's own list. */
  function ActiveRefetch(activeTable: Option<string>, refetchable: set<Resource>): (r: set<Resource>)
    ensures r <= refetchable
    ensures forall x :: x in r <==>
      x in refetchable && activeTable.Some? && TableOf(activeTable.value) == Some(x)
  {
    if activeTable.Some? && TableOf(activeTable.value).Some? && TableOf(activeTable.value).value in refetchable
    then {TableOf(activeTable.value).value}
    else {}
  }

  /** `{ id: currentRecord.id, ...values }`: the values win over the id. */
  function UpdateArgument(record: Fields, values: Fields): (arg: Fields)
    ensures arg.Keys == values.Keys + {"id"}
    ensures "id" !in values ==> arg["id"] == Get(record, "id")
    ensures forall k :: k in values ==> arg[k] == values[k]
  {
    map["id" := Get(record, "id")] + values
  }
}
