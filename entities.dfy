/** The four record types the back end serves, and how each one looks as a
    JSON object in a list response. An email embeds its status, its task and
    its recipients as whole objects (a read-time join). */
module Entities {
  import opened Options
  import opened Json

  datatype Status = Status(id: int, name: string, description: string)

  /** `createdAt` is a timestamp in milliseconds, set by the back end. */
  datatype Task = Task(id: int, subject: string, body: string, createdAt: int)

  datatype Recipient = Recipient(id: int, address: string)

  /** `status` may be null; the recipients are whole Recipient objects, which
      is how every reader of the field treats them. */
  datatype Email = Email(
    id: int,
    sendAt: int,
    status: Option<Status>,
    task: Task,
    recipientList: seq<Recipient>)

  function StatusFields(s: Status): Fields
  {
    map["id" := Num(s.id), "name" := Str(s.name), "description" := Str(s.description)]
  }

  function TaskFields(t: Task): Fields
  {
    map["id" := Num(t.id), "subject" := Str(t.subject), "body" := Str(t.body),
        "created_at" := Num(t.createdAt)]
  }

  function RecipientFields(r: Recipient): Fields
  {
    map["id" := Num(r.id), "address" := Str(r.address)]
  }

  function StatusValue(s: Status): Value
  {
    Obj(StatusFields(s))
  }

  function TaskValue(t: Task): Value
  {
    Obj(TaskFields(t))
  }

  function RecipientValue(r: Recipient): Value
  {
    Obj(RecipientFields(r))
  }

  function RecipientValues(rs: seq<Recipient>): (vs: seq<Value>)
    ensures |vs| == |rs|
    ensures forall i :: 0 <= i < |rs| ==> vs[i] == RecipientValue(rs[i])
  {
    seq(|rs|, i requires 0 <= i < |rs| => RecipientValue(rs[i]))
  }

  /** An email row as the list endpoint returns it. */
  function EmailFields(e: Email): Fields
  {
    map["id" := Num(e.id),
        "send_at" := Num(e.sendAt),
        "status" := (if e.status.Some? then StatusValue(e.status.value) else Null),
        "task" := TaskValue(e.task),
        "recipient_list" := Arr(RecipientValues(e.recipientList))]
  }
}
