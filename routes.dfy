/** The back end's REST routes as one table: for each resource and each
    endpoint, the HTTP method, the shape of the URL, what the request body
    is, and which cache tags the endpoint provides or invalidates. The four
    per-resource API modules are proved to follow this table, so the
    inconsistencies between resources (trailing slashes, PUT for tasks, the
    `data` body of a status update) are stated here once, side by side. */
module Routes {
  import opened Options
  import opened Json
  import opened Http

  datatype Resource = Statuses | Tasks | Emails | Recipients

  datatype Endpoint = List | GetById | Create | Update | Delete

  function CollectionName(r: Resource): string
  {
    match r
    case Statuses => "statuses"
    case Tasks => "tasks"
    case Emails => "emails"
    case Recipients => "recipients"
  }

  function TagTypeOf(r: Resource): TagType
  {
    match r
    case Statuses => StatusTag
    case Tasks => TaskTag
    case Emails => EmailTag
    case Recipients => RecipientTag
  }

  function RouteMethod(r: Resource, e: Endpoint): Method
  {
    match e
    case List => GET
    case GetById => GET
    case Create => POST
    case Update => if r == Tasks then PUT else PATCH
    case Delete => DELETE
  }

  predicate HasItemUrl(e: Endpoint)
  {
    e == GetById || e == Update || e == Delete
  }

  /** Whether the item URL of an endpoint ends in '/'. */
  function ItemSlash(r: Resource, e: Endpoint): bool
  {
    match e
    case GetById => r == Emails
    case Delete => r != Statuses
    case _ => true
  }

  function RoutePath(r: Resource, e: Endpoint, id: Value): Path
  {
    if HasItemUrl(e) then Item(CollectionName(r), Show(id), ItemSlash(r, e))
    else Collection(CollectionName(r))
  }

  /** What a builder sends as the body: nothing, its whole argument, its
      argument less the `id` property, or the argument's `data` property. */
  datatype BodyRule = NoBody | WholeArgument | ArgumentWithoutId | DataField

  function RouteBody(r: Resource, e: Endpoint): BodyRule
  {
    match e
    case Create => WholeArgument
    case Update => if r == Statuses then DataField else ArgumentWithoutId
    case _ => NoBody
  }

  function BodyOf(rule: BodyRule, arg: Fields): Value
  {
    match rule
    case NoBody => Undefined
    case WholeArgument => Obj(arg)
    case ArgumentWithoutId => Obj(arg - {"id"})
    case DataField => Get(arg, "data")
  }

  /** The request the table prescribes for an endpoint called on an id (for
      item endpoints) and an argument object (for create and update). */
  function ExpectedRequest(r: Resource, e: Endpoint, id: Value, arg: Fields): Request
  {
    Request(RouteMethod(r, e), Render(RoutePath(r, e, id)), BodyOf(RouteBody(r, e), arg))
  }

  /** The tags the table prescribes: a list provides one tag per element and
      the general tag, a single read provides the tag of its id, create and
      delete invalidate the general tag, and update invalidates the tag of
      its id. */
  function ExpectedTags(r: Resource, e: Endpoint, id: Value, result: Option<seq<Fields>>): seq<Tag>
  {
    match e
    case List => ListTags(TagTypeOf(r), result)
    case GetById => [ById(TagTypeOf(r), id)]
    case Update => [ById(TagTypeOf(r), id)]
    case _ => [Whole(TagTypeOf(r))]
  }

  /** Every URL of the table reads back as its resource's collection and, for
      item endpoints, the decimal id and the table's trailing-slash choice. */
  lemma RouteUrlParses(r: Resource, e: Endpoint, id: int, arg: Fields)
    ensures Parse(ExpectedRequest(r, e, Num(id), arg).url) == Some(RoutePath(r, e, Num(id)))
    ensures HasItemUrl(e) ==>
      RoutePath(r, e, Num(id)) == Item(CollectionName(r), IntToString(id), ItemSlash(r, e))
    ensures !HasItemUrl(e) ==> RoutePath(r, e, Num(id)) == Collection(CollectionName(r))
  {
    IntToStringShape(id);
    var c := CollectionName(r);
    assert Segment(c) by {
      match r
      case Statuses => assert c == "statuses";
      case Tasks => assert c == "tasks";
      case Emails => assert c == "emails";
      case Recipients => assert c == "recipients";
    }
    ParseRender(RoutePath(r, e, Num(id)));
  }

  /** Two different ids never share an item URL: each record has a URL of
      its own for every item endpoint. */
  lemma ItemUrlsIdentifyIds(r: Resource, e: Endpoint, a: int, b: int, arg: Fields)
    requires HasItemUrl(e)
    requires ExpectedRequest(r, e, Num(a), arg).url == ExpectedRequest(r, e, Num(b), arg).url
    ensures a == b
  {
    RouteUrlParses(r, e, a, arg);
    RouteUrlParses(r, e, b, arg);
    IntToStringInjective(a, b);
  }

  /** Only a task update replaces the record (PUT); every other update
      patches it. */
  lemma OnlyTaskUpdateIsPut(r: Resource)
    ensures RouteMethod(r, Update) == PUT <==> r == Tasks
    ensures r != Tasks ==> RouteMethod(r, Update) == PATCH
  {
  }

  /** An update invalidates a tag that a list provides exactly when the list
      holds a record with the updated id; create and delete invalidate the
      general tag, which every list provides. */
  lemma MutationTagsHitList(r: Resource, id: Value, items: seq<Fields>)
    ensures ExpectedTags(r, Update, id, None)[0] in ExpectedTags(r, List, Undefined, Some(items)) <==>
      exists i :: 0 <= i < |items| && Get(items[i], "id") == id
    ensures ExpectedTags(r, Create, id, None)[0] in ExpectedTags(r, List, Undefined, Some(items))
    ensures ExpectedTags(r, Delete, id, None)[0] in ExpectedTags(r, List, Undefined, Some(items))
  {
    ListTagsContents(TagTypeOf(r), Some(items), id);
  }
}
