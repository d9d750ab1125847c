/** What an endpoint definition produces: the request its `query` builder
    returns, and the cache tags its `providesTags` / `invalidatesTags`
    builder returns. URLs are relative to the API's base URL. */
module Http {
  import opened Options
  import opened Json

  datatype Method = GET | POST | PUT | PATCH | DELETE

  /** `body` is `undefined` when the builder passes none. */
  datatype Request = Request(verb: Method, url: string, body: Value)

  /** A query and the tags it provides. */
  datatype Query = Query(request: Request, tags: seq<Tag>)

  /** A mutation and the tags it invalidates. */
  datatype Mutation = Mutation(request: Request, tags: seq<Tag>)

  /** One '/'-free, non-empty piece of a URL path. */
  predicate Segment(s: string)
  {
    |s| > 0 && '/' !in s
  }

  /** The two shapes of URL the endpoints use: a collection (`statuses/`)
      and one item of it (`statuses/7` or `statuses/7/`). */
  datatype Path =
    | Collection(name: string)
    | Item(name: string, id: string, trailingSlash: bool)

  predicate WellFormed(p: Path)
  {
    Segment(p.name) && (p.Item? ==> Segment(p.id))
  }

  function Render(p: Path): string
  {
    match p
    case Collection(c) => c + "/"
    case Item(c, id, slash) => c + "/" + id + (if slash then "/" else "")
  }

  /** The position of the first '/' in `s`, if any. */
  function FirstSlash(s: string): (r: Option<nat>)
    ensures r.Some? ==> r.value < |s| && s[r.value] == '/' && '/' !in s[..r.value]
    ensures r.None? ==> '/' !in s
  {
    if |s| == 0 then None
    else if s[0] == '/' then Some(0)
    else match FirstSlash(s[1..])
      case None => None
      case Some(i) => Some(i + 1)
  }

  /** Reads a URL back as a collection or an item path: the first segment
      names the collection, the rest (less one trailing '/') names the item. */
  function Parse(url: string): Option<Path>
  {
    match FirstSlash(url)
    case None => None
    case Some(i) =>
      var name, rest := url[..i], url[i + 1..];
      if rest == "" then Some(Collection(name))
      else if rest[|rest| - 1] == '/' then Some(Item(name, rest[..|rest| - 1], true))
      else Some(Item(name, rest, false))
  }

  lemma {:induction false} FirstSlashAfter(c: string, rest: string)
    requires '/' !in c
    ensures FirstSlash(c + "/" + rest) == Some(|c|)
  {
    if |c| > 0 {
      assert (c + "/" + rest)[1..] == c[1..] + "/" + rest;
      FirstSlashAfter(c[1..], rest);
    }
  }

  /** Parsing a rendered URL gives back its collection, its item id and
      whether it ends in '/': no two well-formed paths share a URL. */
  lemma ParseRender(p: Path)
    requires WellFormed(p)
    ensures Parse(Render(p)) == Some(p)
  {
    match p
    case Collection(c) =>
      FirstSlashAfter(c, "");
      assert Render(p) == c + "/" + "";
    case Item(c, id, slash) =>
      var tail := id + (if slash then "/" else "");
      FirstSlashAfter(c, tail);
      assert Render(p) == c + "/" + tail;
      assert Render(p)[..|c|] == c;
      assert Render(p)[|c| + 1..] == tail;
      if slash {
        assert tail[..|tail| - 1] == id;
      } else {
        assert tail == id;
        assert id[|id| - 1] in id;
      }
  }

  datatype TagType = StatusTag | TaskTag | EmailTag | RecipientTag

  /** `'Status'` names every status; `{type: 'Status', id}` names one. */
  datatype Tag = Whole(kind: TagType) | ById(kind: TagType, id: Value)

  /** `result.map(({ id }) => ({ type, id }))` */
  function ItemTags(kind: TagType, items: seq<Fields>): (ts: seq<Tag>)
    ensures |ts| == |items|
    ensures forall i :: 0 <= i < |items| ==> ts[i] == ById(kind, Get(items[i], "id"))
  {
    if |items| == 0 then [] else [ById(kind, Get(items[0], "id"))] + ItemTags(kind, items[1..])
  }

  /** The tags a list query provides: one per listed element, in list order,
      then the general tag; only the general tag when there is no result. */
  function ListTags(kind: TagType, result: Option<seq<Fields>>): (ts: seq<Tag>)
    ensures result.None? ==> ts == [Whole(kind)]
    ensures result.Some? ==> |ts| == |result.value| + 1 && ts[|ts| - 1] == Whole(kind)
    ensures result.Some? ==>
      forall i :: 0 <= i < |result.value| ==> ts[i] == ById(kind, Get(result.value[i], "id"))
  {
    if result.Some? then ItemTags(kind, result.value) + [Whole(kind)] else [Whole(kind)]
  }

  /** A list provides the tag of one id exactly when it lists a record with
      that id; every tag it provides is of its own kind; it always provides
      the general tag. */
  lemma ListTagsContents(kind: TagType, result: Option<seq<Fields>>, id: Value)
    ensures ById(kind, id) in ListTags(kind, result) <==>
      result.Some? && exists i :: 0 <= i < |result.value| && Get(result.value[i], "id") == id
    ensures Whole(kind) in ListTags(kind, result)
    ensures forall t :: t in ListTags(kind, result) ==> t.kind == kind
  {
    var ts := ListTags(kind, result);
    if result.Some? {
      if ById(kind, id) in ts {
        var j :| 0 <= j < |ts| && ts[j] == ById(kind, id);
        assert j < |result.value|;
      }
      if exists i :: 0 <= i < |result.value| && Get(result.value[i], "id") == id {
        var i :| 0 <= i < |result.value| && Get(result.value[i], "id") == id;
        assert ts[i] == ById(kind, id);
      }
    }
  }
}
