/** The status endpoints: `statuses/` and its items. */
module StatusApi {
  import opened Options
  import opened Json
  import opened Http
  import opened Routes

  /** `getStatuses`, given the list it received (None: no result). */
  function GetStatuses(result: Option<seq<Fields>>): (q: Query)
    ensures q.request == ExpectedRequest(Statuses, List, Undefined, map[])
    ensures q.tags == ExpectedTags(Statuses, List, Undefined, result)
  {
    Query(Request(GET, "statuses/", Undefined), ListTags(StatusTag, result))
  }

  /** `getStatusById`: no trailing slash. */
  function GetStatusById(id: Value): (q: Query)
    ensures q.request == ExpectedRequest(Statuses, GetById, id, map[])
    ensures q.tags == ExpectedTags(Statuses, GetById, id, None)
  {
    Query(Request(GET, "statuses/" + Show(id), Undefined), [ById(StatusTag, id)])
  }

  function CreateStatus(body: Fields): (m: Mutation)
    ensures m.request == ExpectedRequest(Statuses, Create, Undefined, body)
    ensures m.tags == ExpectedTags(Statuses, Create, Undefined, None)
  {
    Mutation(Request(POST, "statuses/", Obj(body)), [Whole(StatusTag)])
  }

  /** `updateStatus({ id, data })`: the body is the argument's `data`
      property, not the rest of the argument. */
  function UpdateStatus(arg: Fields): (m: Mutation)
    ensures m.request == ExpectedRequest(Statuses, Update, Get(arg, "id"), arg)
    ensures m.tags == ExpectedTags(Statuses, Update, Get(arg, "id"), None)
  {
    var id, data := Get(arg, "id"), Get(arg, "data");
    Mutation(Request(PATCH, "statuses/" + Show(id) + "/", data), [ById(StatusTag, id)])
  }

  /** `deleteStatus`: no trailing slash. */
  function DeleteStatus(id: Value): (m: Mutation)
    ensures m.request == ExpectedRequest(Statuses, Delete, id, map[])
    ensures m.tags == ExpectedTags(Statuses, Delete, id, None)
  {
    Mutation(Request(DELETE, "statuses/" + Show(id), Undefined), [Whole(StatusTag)])
  }
}
