/** The task endpoints: `tasks/` and its items. */
module TaskApi {
  import opened Options
  import opened Json
  import opened Http
  import opened Routes

  /** `getTasks`, given the list it received (None: no result). */
  function GetTasks(result: Option<seq<Fields>>): (q: Query)
    ensures q.request == ExpectedRequest(Tasks, List, Undefined, map[])
    ensures q.tags == ExpectedTags(Tasks, List, Undefined, result)
  {
    Query(Request(GET, "tasks/", Undefined), ListTags(TaskTag, result))
  }

  /** `getTaskById`: no trailing slash. */
  function GetTaskById(id: Value): (q: Query)
    ensures q.request == ExpectedRequest(Tasks, GetById, id, map[])
    ensures q.tags == ExpectedTags(Tasks, GetById, id, None)
  {
    Query(Request(GET, "tasks/" + Show(id), Undefined), [ById(TaskTag, id)])
  }

  function CreateTask(body: Fields): (m: Mutation)
    ensures m.request == ExpectedRequest(Tasks, Create, Undefined, body)
    ensures m.tags == ExpectedTags(Tasks, Create, Undefined, None)
  {
    Mutation(Request(POST, "tasks/", Obj(body)), [Whole(TaskTag)])
  }

  /** `updateTask({ id, ...body })`: a PUT, the only full replacement. */
  function UpdateTask(arg: Fields): (m: Mutation)
    ensures m.request == ExpectedRequest(Tasks, Update, Get(arg, "id"), arg)
    ensures m.tags == ExpectedTags(Tasks, Update, Get(arg, "id"), None)
  {
    var id, body := Get(arg, "id"), arg - {"id"};
    Mutation(Request(PUT, "tasks/" + Show(id) + "/", Obj(body)), [ById(TaskTag, id)])
  }

  /** `deleteTask`: with a trailing slash. */
  function DeleteTask(id: Value): (m: Mutation)
    ensures m.request == ExpectedRequest(Tasks, Delete, id, map[])
    ensures m.tags == ExpectedTags(Tasks, Delete, id, None)
  {
    Mutation(Request(DELETE, "tasks/" + Show(id) + "/", Undefined), [Whole(TaskTag)])
  }
}
