/** The post service: building a new post, the validated update of a post's
    editable attributes (merged in place with the stored post), flagging, and
    the flagged-post query. Every store call is represented by the request the
    service sends and the status code the store answers with, which is an
    input (`None`: no answer object). */
module PostService {
  import opened Js
  import opened DynamoUtilities

  // -------------------------------------------------------------------
  // createPost

  /** createPost(username, description, score, title). `itemID` is the fresh
      identifier the id generator returns; `putStatus` is the store's answer
      to the put. The record is stored with its `class` key, which is removed
      from the record that is returned. */
  function CreatePost(username: Value, description: Value, score: Value, title: Value,
                      itemID: string, putStatus: Option<int>): (x: Exchange<Object, Result<Object>>)
    ensures x.request.Some?
    ensures var stored := x.request.value;
      && stored.Keys == {"class", "itemID", "postedBy", "description", "score", "title", "isFlagged"}
      && stored["class"] == Str("post") && stored["itemID"] == Str(itemID)
      && stored["postedBy"] == username && stored["isFlagged"] == Num(0)
      && stored["description"] == description && stored["score"] == score && stored["title"] == title
    ensures x.result.Ok? <==> Succeeded(putStatus)
    ensures x.result.Ok? ==> x.result.value == x.request.value - {"class"} && "class" !in x.result.value
    ensures x.result.Err? ==> x.result.error == InternalError
  {
    var post := map[
      "class" := Str("post"),
      "itemID" := Str(itemID),
      "postedBy" := username,
      "description" := description,
      "score" := score,
      "title" := title,
      "isFlagged" := Num(0)];
    match ThrowIfError(putStatus)
    case Fail(e) => Exchange(Some(post), Err(e))
    case Pass => Exchange(Some(post), Ok(post - {"class"}))
  }

  // -------------------------------------------------------------------
  // updatePost

  const BadFlagMessage := "provided flag must be a number (0 or 1)"
  const NothingToUpdateMessage := "No updatable attributes provided. Must provide description, title, flag, or score in body (flag is not valid if you are the poster)"
  const BadScoreMessage := "provided score must be of type number"
  const BadDescriptionMessage := "provided description must be of type string"
  const BadTitleMessage := "provided title must be of type string"

  /** A flag value the services accept: a number in [0, 1]. */
  predicate IsFlagValue(v: Value) { v.Num? && 0 <= v.n <= 1 }

  /** A present isFlagged that is not a number in [0, 1]. */
  predicate BadFlag(attrs: Object)
  {
    Get(attrs, "isFlagged") != Undefined && !IsFlagValue(Get(attrs, "isFlagged"))
  }

  /** None of the four updatable attributes is given. */
  predicate NothingToUpdate(attrs: Object)
  {
    Get(attrs, "description") == Undefined && Get(attrs, "title") == Undefined &&
    Get(attrs, "score") == Undefined && Get(attrs, "isFlagged") == Undefined
  }

  /** A present attribute whose value is not a number. */
  predicate NotANumber(attrs: Object, key: string)
  {
    Get(attrs, key) != Undefined && !Get(attrs, key).Num?
  }

  /** A present attribute whose value is not a string. */
  predicate NotAString(attrs: Object, key: string)
  {
    Get(attrs, key) != Undefined && !Get(attrs, key).Str?
  }

  /** The ordered checks updatePost makes before it touches anything: each
      check answers with its own message, and only once every earlier check
      has passed. */
  function CheckUpdate(attrs: Object): (o: Outcome)
    ensures o.Fail? ==> o.error.Thrown? && o.error.status == 400
    ensures BadFlag(attrs) ==> o == Fail(Thrown(400, BadFlagMessage))
    ensures !BadFlag(attrs) && NothingToUpdate(attrs) ==> o == Fail(Thrown(400, NothingToUpdateMessage))
    ensures !BadFlag(attrs) && !NothingToUpdate(attrs) && NotANumber(attrs, "score") ==>
      o == Fail(Thrown(400, BadScoreMessage))
    ensures (!BadFlag(attrs) && !NothingToUpdate(attrs) && !NotANumber(attrs, "score")
             && NotAString(attrs, "description")) ==>
      o == Fail(Thrown(400, BadDescriptionMessage))
    ensures (!BadFlag(attrs) && !NothingToUpdate(attrs) && !NotANumber(attrs, "score")
             && !NotAString(attrs, "description") && NotAString(attrs, "title")) ==>
      o == Fail(Thrown(400, BadTitleMessage))
    ensures o.Pass? <==>
      && !BadFlag(attrs) && !NothingToUpdate(attrs)
      && !NotANumber(attrs, "score") && !NotAString(attrs, "description") && !NotAString(attrs, "title")
  {
    var description, title, score, isFlagged :=
      Get(attrs, "description"), Get(attrs, "title"), Get(attrs, "score"), Get(attrs, "isFlagged");
    if isFlagged != Undefined && (!isFlagged.Num? || isFlagged.n > 1 || isFlagged.n < 0) then
      Fail(Thrown(400, BadFlagMessage))
    else if description == Undefined && title == Undefined && score == Undefined && isFlagged == Undefined then
      Fail(Thrown(400, NothingToUpdateMessage))
    else if score != Undefined && !score.Num? then Fail(Thrown(400, BadScoreMessage))
    else if description != Undefined && !description.Str? then Fail(Thrown(400, BadDescriptionMessage))
    else if title != Undefined && !title.Str? then Fail(Thrown(400, BadTitleMessage))
    else Pass
  }

  /** The merge: every attribute that is undefined takes the stored post's
      value for that key (itself undefined when the post has none); defined
      attributes are kept; no key is added or removed. */
  function Merged(attrs: Object, post: Object): (m: Object)
    ensures m.Keys == attrs.Keys
    ensures forall k :: k in attrs && attrs[k] == Undefined ==> m[k] == Get(post, k)
    ensures forall k :: k in attrs && attrs[k] != Undefined ==> m[k] == attrs[k]
  {
    map k | k in attrs :: if attrs[k] == Undefined then Get(post, k) else attrs[k]
  }

  /** Merging twice with the same post changes nothing more. */
  lemma MergeIdempotent(attrs: Object, post: Object)
    ensures Merged(Merged(attrs, post), post) == Merged(attrs, post)
  {
    var once := Merged(attrs, post);
    forall k | k in once ensures Merged(once, post)[k] == once[k] {
      if once[k] == Undefined {
        assert attrs[k] == Undefined && Get(post, k) == Undefined;
      }
    }
  }

  /** After the merge, no key the stored post defines is left undefined. */
  lemma MergeFillsFromPost(attrs: Object, post: Object, k: string)
    requires k in attrs && Get(post, k) != Undefined
    ensures Merged(attrs, post)[k] != Undefined
    ensures attrs[k] == Undefined ==> Merged(attrs, post)[k] == post[k]
  {
  }

  /** The request's attribute object, which updatePost fills in place.
      `keys` is the order Object.keys enumerates its own properties in. */
  class Attributes {
    var keys: seq<string>
    var props: Object

    ghost predicate Valid()
      reads this
    {
      forall k :: k in props <==> k in keys
    }

    constructor (keys: seq<string>, props: Object)
      requires forall k :: k in props <==> k in keys
      ensures Valid() && this.keys == keys && this.props == props
    {
      this.keys := keys;
      this.props := props;
    }
  }

  /** updatePost(id, post, attributes): the checks, then the in-place merge
      over `Object.keys(attributes)`, then one store update with the merged
      attributes, which are also what is returned. `updateStatus` is the
      store's answer to that update. */
  method UpdatePost(id: string, post: Object, attributes: Attributes, updateStatus: Option<int>)
    returns (x: Exchange<(string, Object), Result<Object>>)
    requires attributes.Valid()
    modifies attributes
    ensures attributes.Valid() && attributes.keys == old(attributes.keys)
    ensures CheckUpdate(old(attributes.props)).Fail? ==>
      && attributes.props == old(attributes.props)
      && x == Exchange(None, Err(CheckUpdate(old(attributes.props)).error))
    ensures CheckUpdate(old(attributes.props)).Pass? ==>
      && attributes.props == Merged(old(attributes.props), post)
      && x.request == Some((id, attributes.props))
      && x.result == (if Succeeded(updateStatus) then Ok(attributes.props) else Err(InternalError))
  {
    var check := CheckUpdate(attributes.props);
    if check.Fail? {
      return Exchange(None, Err(check.error));
    }
    ghost var original := attributes.props;
    var i := 0;
    while i < |attributes.keys|
      invariant 0 <= i <= |attributes.keys|
      invariant attributes.keys == old(attributes.keys)
      invariant attributes.props.Keys == original.Keys
      invariant forall k :: k in original ==>
        attributes.props[k] == (if k in attributes.keys[..i] && original[k] == Undefined then Get(post, k) else original[k])
    {
      var key := attributes.keys[i];
      if attributes.props[key] == Undefined {
        attributes.props := attributes.props[key := Get(post, key)];
      }
      i := i + 1;
    }
    assert attributes.keys[..i] == attributes.keys;
    var request := Some((id, attributes.props));
    var stored := ThrowIfError(updateStatus);
    if stored.Fail? {
      return Exchange(request, Err(stored.error));
    }
    return Exchange(request, Ok(attributes.props));
  }

  /** The case the tests pin down: updating only the title keeps the stored
      score and description. */
  lemma UpdateOnlyTitle(post: Object, title: string)
    requires "score" in post && "description" in post
    ensures var attrs := map["title" := Str(title), "score" := Undefined, "description" := Undefined];
      && CheckUpdate(attrs) == Pass
      && Merged(attrs, post) == map["title" := Str(title), "score" := post["score"], "description" := post["description"]]
  {
  }

  // -------------------------------------------------------------------
  // getPost

  /** The store's answer to a get: its status code and the item, if any. */
  datatype GetAnswer = GetAnswer(status: int, item: Option<Object>)

  /** getPost as written: only a missing answer object is rejected; an
      answer without an item is returned as the post. */
  function GetPost(id: string, answer: Option<GetAnswer>): (r: Result<GetAnswer>)
    ensures r.Err? <==> answer.None?
    ensures r.Ok? ==> r.value == answer.value
    ensures r.Err? ==> r.error == Thrown(400, "Post not found with id: " + id)
  {
    match answer
    case None => Err(Thrown(400, "Post not found with id: " + id))
    case Some(a) => Ok(a)
  }

  /** The store answers a get for an unknown key with a success status and no
      item, and getPost passes that answer on instead of rejecting it. */
  lemma GetPostPassesMissingItem(id: string)
    ensures GetPost(id, Some(GetAnswer(200, None))) == Ok(GetAnswer(200, None))
    ensures GetPostChecked(id, Some(GetAnswer(200, None))) == Err(Thrown(400, "Post not found with id: " + id))
  {
  }

  /** getPost as its message intends: the post is the answer's item, and a
      missing answer or a missing item is "not found". */
  function GetPostChecked(id: string, answer: Option<GetAnswer>): (r: Result<Object>)
    ensures r.Ok? <==> answer.Some? && answer.value.item.Some?
    ensures r.Ok? ==> r.value == answer.value.item.value
    ensures r.Err? ==> r.error == Thrown(400, "Post not found with id: " + id)
  {
    if answer.Some? && answer.value.item.Some? then Ok(answer.value.item.value)
    else Err(Thrown(400, "Post not found with id: " + id))
  }

  // -------------------------------------------------------------------
  // updatePostFlag and getFlaggedPost

  const FlagMissingMessage := "flag must be provided in body"

  /** updatePostFlag(id, flag): the flag must be given and be a number in
      [0, 1]; then the store is asked once to set it. */
  function UpdatePostFlag(id: string, flag: Value, updateStatus: Option<int>): (x: Exchange<(string, int), Outcome>)
    ensures flag == Undefined ==> x == Exchange(None, Fail(Thrown(400, FlagMissingMessage)))
    ensures flag != Undefined && !IsFlagValue(flag) ==> x == Exchange(None, Fail(Thrown(400, BadFlagMessage)))
    ensures x.request.Some? <==> IsFlagValue(flag)
    ensures IsFlagValue(flag) ==> x.request == Some((id, flag.n)) && x.result == ThrowIfError(updateStatus)
  {
    if flag == Undefined then Exchange(None, Fail(Thrown(400, FlagMissingMessage)))
    else if !flag.Num? || flag.n > 1 || flag.n < 0 then Exchange(None, Fail(Thrown(400, BadFlagMessage)))
    else Exchange(Some((id, flag.n)), ThrowIfError(updateStatus))
  }

  /** The store's answer to a query: its status code and its `Items`. */
  datatype QueryAnswer<T> = QueryAnswer(status: int, items: T)

  function StatusOf<T>(answer: Option<QueryAnswer<T>>): Option<int>
  {
    if answer.Some? then Some(answer.value.status) else None
  }

  /** getFlaggedPost(isFlagged): a value that compares above 1 or below 0 is
      refused; anything else (a value that is not a number included, as
      JavaScript's comparisons are false for NaN) is queried, and the query's
      `Items` are returned unchanged. */
  function GetFlaggedPost<T>(isFlagged: Value, answer: Option<QueryAnswer<T>>): (x: Exchange<Value, Result<T>>)
    ensures GreaterThan(isFlagged, 1) || LessThan(isFlagged, 0) ==>
      x == Exchange(None, Err(Thrown(400, "isFlagged must be 0 or 1")))
    ensures !(GreaterThan(isFlagged, 1) || LessThan(isFlagged, 0)) ==> x.request == Some(isFlagged)
    ensures x.result.Ok? <==> !(GreaterThan(isFlagged, 1) || LessThan(isFlagged, 0)) && Succeeded(StatusOf(answer))
    ensures x.result.Ok? ==> x.result.value == answer.value.items
    ensures !(GreaterThan(isFlagged, 1) || LessThan(isFlagged, 0)) && !Succeeded(StatusOf(answer)) ==>
      x.result == Err(InternalError)
  {
    if GreaterThan(isFlagged, 1) || LessThan(isFlagged, 0) then
      Exchange(None, Err(Thrown(400, "isFlagged must be 0 or 1")))
    else match ThrowIfError(StatusOf(answer))
      case Fail(e) => Exchange(Some(isFlagged), Err(e))
      case Pass => Exchange(Some(isFlagged), Ok(answer.value.items))
  }

  /** For number arguments the flag query accepts exactly 0 and 1, like the
      flag update. */
  lemma FlagChecksAgreeOnNumbers(id: string, n: int, status: Option<int>, answer: Option<QueryAnswer<seq<Object>>>)
    ensures GetFlaggedPost(Num(n), answer).request.Some? <==> UpdatePostFlag(id, Num(n), status).request.Some?
  {
  }
}
