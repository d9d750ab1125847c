/** The email endpoints: `emails/` and its items. */
module EmailApi {
  import opened Options
  import opened Json
  import opened Http
  import opened Routes

  /** `getEmails`, given the list it received (None: no result). */
  function GetEmails(result: Option<seq<Fields>>): (q: Query)
    ensures q.request == ExpectedRequest(Emails, List, Undefined, map[])
    ensures q.tags == ExpectedTags(Emails, List, Undefined, result)
  {
    Query(Request(GET, "emails/", Undefined), ListTags(EmailTag, result))
  }

  /** `getEmailById`: the only single read with a trailing slash. */
  function GetEmailById(id: Value): (q: Query)
    ensures q.request == ExpectedRequest(Emails, GetById, id, map[])
    ensures q.tags == ExpectedTags(Emails, GetById, id, None)
  {
    Query(Request(GET, "emails/" + Show(id) + "/", Undefined), [ById(EmailTag, id)])
  }

  function CreateEmail(body: Fields): (m: Mutation)
    ensures m.request == ExpectedRequest(Emails, Create, Undefined, body)
    ensures m.tags == ExpectedTags(Emails, Create, Undefined, None)
  {
    Mutation(Request(POST, "emails/", Obj(body)), [Whole(EmailTag)])
  }

  /** `updateEmail({ id, ...body })`: a PATCH of the rest of the argument. */
  function UpdateEmail(arg: Fields): (m: Mutation)
    ensures m.request == ExpectedRequest(Emails, Update, Get(arg, "id"), arg)
    ensures m.tags == ExpectedTags(Emails, Update, Get(arg, "id"), None)
  {
    var id, body := Get(arg, "id"), arg - {"id"};
    Mutation(Request(PATCH, "emails/" + Show(id) + "/", Obj(body)), [ById(EmailTag, id)])
  }

  /** `deleteEmail`: with a trailing slash. */
  function DeleteEmail(id: Value): (m: Mutation)
    ensures m.request == ExpectedRequest(Emails, Delete, id, map[])
    ensures m.tags == ExpectedTags(Emails, Delete, id, None)
  {
    Mutation(Request(DELETE, "emails/" + Show(id) + "/", Undefined), [Whole(EmailTag)])
  }
}
