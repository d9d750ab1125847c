/** The recipient endpoints: `recipients/` and its items. */
module RecipientApi {
  import opened Options
  import opened Json
  import opened Http
  import opened Routes

  /** `getRecipients`, given the list it received (None: no result). */
  function GetRecipients(result: Option<seq<Fields>>): (q: Query)
    ensures q.request == ExpectedRequest(Recipients, List, Undefined, map[])
    ensures q.tags == ExpectedTags(Recipients, List, Undefined, result)
  {
    Query(Request(GET, "recipients/", Undefined), ListTags(RecipientTag, result))
  }

  /** `getRecipientById`: no trailing slash. */
  function GetRecipientById(id: Value): (q: Query)
    ensures q.request == ExpectedRequest(Recipients, GetById, id, map[])
    ensures q.tags == ExpectedTags(Recipients, GetById, id, None)
  {
    Query(Request(GET, "recipients/" + Show(id), Undefined), [ById(RecipientTag, id)])
  }

  function CreateRecipient(body: Fields): (m: Mutation)
    ensures m.request == ExpectedRequest(Recipients, Create, Undefined, body)
    ensures m.tags == ExpectedTags(Recipients, Create, Undefined, None)
  {
    Mutation(Request(POST, "recipients/", Obj(body)), [Whole(RecipientTag)])
  }

  /** `updateRecipient({ id, ...body })`: a PATCH of the rest of the argument. */
  function UpdateRecipient(arg: Fields): (m: Mutation)
    ensures m.request == ExpectedRequest(Recipients, Update, Get(arg, "id"), arg)
    ensures m.tags == ExpectedTags(Recipients, Update, Get(arg, "id"), None)
  {
    var id, body := Get(arg, "id"), arg - {"id"};
    Mutation(Request(PATCH, "recipients/" + Show(id) + "/", Obj(body)), [ById(RecipientTag, id)])
  }

  /** `deleteRecipient`: with a trailing slash. */
  function DeleteRecipient(id: Value): (m: Mutation)
    ensures m.request == ExpectedRequest(Recipients, Delete, id, map[])
    ensures m.tags == ExpectedTags(Recipients, Delete, id, None)
  {
    Mutation(Request(DELETE, "recipients/" + Show(id) + "/", Undefined), [Whole(RecipientTag)])
  }
}
