/** The user service: registration, login, role promotion and the like /
    dislike toggle over a user's two vote lists. Password hashing and
    comparison (bcrypt) and token signing (jsonwebtoken) are parameters: the
    hash is an input string, the comparison a predicate on the stored user,
    the signer a function of the signed object. Store answers are inputs. */
module UserService {
  import opened Js
  import opened DynamoUtilities

  // -------------------------------------------------------------------
  // register and login

  /** register(username, password). `hash` is the password's hash, `count` the
      `Count` of the username query's answer (undefined when the answer has
      none), `itemID` the fresh identifier, `putStatus` the store's answer to
      the put. The stored record carries the hash; the returned one does not. */
  function Register(username: Value, hash: string, count: Value, itemID: string, putStatus: Option<int>)
    : (x: Exchange<Object, Result<Object>>)
    ensures Truthy(count) ==> x == Exchange(None, Err(Thrown(400, "Username already taken")))
    ensures !Truthy(count) ==> x.request.Some?
    ensures !Truthy(count) ==> var stored := x.request.value;
      && stored.Keys == {"class", "itemID", "username", "password", "role", "postsLiked", "postsDisliked"}
      && stored["class"] == Str("user") && stored["itemID"] == Str(itemID)
      && stored["username"] == username && stored["password"] == Str(hash)
      && stored["role"] == Str("user") && stored["postsLiked"] == Arr([]) && stored["postsDisliked"] == Arr([])
    ensures x.result.Ok? <==> !Truthy(count) && Succeeded(putStatus)
    ensures x.result.Ok? ==> x.result.value == x.request.value - {"password"} && "password" !in x.result.value
    ensures !Truthy(count) && !Succeeded(putStatus) ==> x.result == Err(InternalError)
  {
    if Truthy(count) then Exchange(None, Err(Thrown(400, "Username already taken")))
    else
      var user := map[
        "class" := Str("user"),
        "itemID" := Str(itemID),
        "username" := username,
        "password" := Str(hash),
        "role" := Str("user"),
        "postsLiked" := Arr([]),
        "postsDisliked" := Arr([])];
      match ThrowIfError(putStatus)
      case Fail(e) => Exchange(Some(user), Err(e))
      case Pass => Exchange(Some(user), Ok(user - {"password"}))
  }

  /** login(username, password). `status` and `items` are the username
      query's answer; `matches` is the password comparison against a stored
      user; `sign` signs the object given to createToken, which drops the
      password first. */
  function Login(status: Option<int>, items: seq<Object>, matches: Object -> bool, sign: Object -> string)
    : (r: Result<string>)
    ensures !Succeeded(status) ==> r == Err(InternalError)
    ensures Succeeded(status) ==> (r.Ok? <==> |items| > 0 && matches(items[0]))
    ensures r.Ok? ==> r.value == sign(items[0] - {"password"})
    ensures Succeeded(status) && r.Err? ==> r.error == Thrown(400, "Invalid username/password")
  {
    match ThrowIfError(status)
    case Fail(e) => Err(e)
    case Pass =>
      if |items| > 0 && matches(items[0]) then Ok(CreateToken(items[0], sign))
      else Err(Thrown(400, "Invalid username/password"))
  }

  /** createToken: the signed object never carries the password. */
  function CreateToken(user: Object, sign: Object -> string): (token: string)
    ensures token == sign(user - {"password"})
  {
    sign(user - {"password"})
  }

  // -------------------------------------------------------------------
  // updateRole

  const CannotDemote := "Cannot demote admin, use AWS console instead"

  /** updateRole(id, role): `getStatus` and `found` are the store's answer to
      the lookup by id (`found` is its item), `updateStatus` its answer to
      the role update, whose status is what a successful call returns. */
  function UpdateRole(id: string, role: Value, getStatus: Option<int>, found: Option<Object>, updateStatus: Option<int>)
    : (x: Exchange<(string, Value), Result<int>>)
    ensures !Succeeded(getStatus) ==> x == Exchange(None, Err(InternalError))
    ensures Succeeded(getStatus) && found.None? ==> x == Exchange(None, Err(Thrown(400, "User with id " + id + " not found")))
    ensures Succeeded(getStatus) && found.Some? && StrictEquals(Get(found.value, "role"), role) ==>
      x == Exchange(None, Err(Thrown(400, "User is already role " + ToStr(role))))
    ensures Succeeded(getStatus) && found.Some? && !StrictEquals(Get(found.value, "role"), role) && role != Str("admin") ==>
      x == Exchange(None, Err(Thrown(400, CannotDemote)))
    ensures x.request.Some? <==>
      Succeeded(getStatus) && found.Some? && role == Str("admin") && Get(found.value, "role") != Str("admin")
    ensures x.request.Some? ==>
      && x.request.value == (id, role)
      && x.result == (if Succeeded(updateStatus) then Ok(updateStatus.value) else Err(InternalError))
  {
    match ThrowIfError(getStatus)
    case Fail(e) => Exchange(None, Err(e))
    case Pass =>
      match found
      case None => Exchange(None, Err(Thrown(400, "User with id " + id + " not found")))
      case Some(user) =>
        var currentRole := Get(user, "role");
        if StrictEquals(currentRole, role) then Exchange(None, Err(Thrown(400, "User is already role " + ToStr(role))))
        else if !StrictEquals(role, Str("admin")) then Exchange(None, Err(Thrown(400, CannotDemote)))
        else match ThrowIfError(updateStatus)
          case Fail(e) => Exchange(Some((id, role)), Err(e))
          case Pass => Exchange(Some((id, role)), Ok(updateStatus.value))
  }

  /** Only a promotion to admin succeeds, and it cannot be repeated: once the
      stored role is "admin", the same request is refused. */
  lemma PromotionOnlyOnce(id: string, role: Value, getStatus: Option<int>, user: Object, updateStatus: Option<int>,
                          updateStatus': Option<int>)
    requires UpdateRole(id, role, getStatus, Some(user), updateStatus).result.Ok?
    ensures role == Str("admin") && Get(user, "role") != Str("admin")
    ensures UpdateRole(id, role, getStatus, Some(user["role" := role]), updateStatus').result
         == Err(Thrown(400, "User is already role admin"))
  {
    assert Get(user["role" := role], "role") == Str("admin");
    assert "User is already role " + ToStr(role) == "User is already role admin";
  }

  // -------------------------------------------------------------------
  // addLike

  /** `list.indexOf(x)` for an x the list includes: its first position. */
  function IndexOf(s: seq<string>, x: string): (i: nat)
    requires x in s
    ensures i < |s| && s[i] == x && x !in s[..i]
  {
    if s[0] == x then 0
    else
      var i := 1 + IndexOf(s[1..], x);
      assert s[..i] == [s[0]] + s[1..][..i - 1];
      i
  }

  /** The list without its element at index i (a REMOVE of that element). */
  function RemoveAt(s: seq<string>, i: nat): (r: seq<string>)
    requires i < |s|
    ensures |r| == |s| - 1
    ensures multiset(r) == multiset(s) - multiset{s[i]}
    ensures forall j :: 0 <= j < i ==> r[j] == s[j]
    ensures forall j :: i <= j < |r| ==> r[j] == s[j + 1]
  {
    assert s == s[..i] + [s[i]] + s[i + 1..];
    s[..i] + s[i + 1..]
  }

  /** The two vote lists of a stored user. */
  datatype VoteList = Liked | Disliked

  /** The vote lists of a user's record in the store. The two kinds of list
      update the service issues are methods; an update takes effect exactly
      when the store reports success for it. */
  class StoredUser {
    var postsLiked: seq<string>
    var postsDisliked: seq<string>

    constructor (postsLiked: seq<string>, postsDisliked: seq<string>)
      ensures this.postsLiked == postsLiked && this.postsDisliked == postsDisliked
    {
      this.postsLiked := postsLiked;
      this.postsDisliked := postsDisliked;
    }

    function ListOf(which: VoteList): seq<string>
      reads this
    {
      if which == Liked then postsLiked else postsDisliked
    }

    /** The removal at an index (removeLike / removeDislike). */
    method RemoveAtIndex(which: VoteList, index: nat, status: Option<int>) returns (o: Outcome)
      requires index < |ListOf(which)|
      modifies this
      ensures o == ThrowIfError(status)
      ensures ListOf(which) == if o.Pass? then RemoveAt(old(ListOf(which)), index) else old(ListOf(which))
      ensures which == Liked ==> postsDisliked == old(postsDisliked)
      ensures which == Disliked ==> postsLiked == old(postsLiked)
    {
      o := ThrowIfError(status);
      if o.Pass? {
        if which == Liked {
          postsLiked := RemoveAt(postsLiked, index);
        } else {
          postsDisliked := RemoveAt(postsDisliked, index);
        }
      }
    }

    /** The append of a post id (updateLike / updateDislike). */
    method Append(which: VoteList, postID: string, status: Option<int>) returns (o: Outcome)
      modifies this
      ensures o == ThrowIfError(status)
      ensures ListOf(which) == if o.Pass? then old(ListOf(which)) + [postID] else old(ListOf(which))
      ensures which == Liked ==> postsDisliked == old(postsDisliked)
      ensures which == Disliked ==> postsLiked == old(postsLiked)
    {
      o := ThrowIfError(status);
      if o.Pass? {
        if which == Liked {
          postsLiked := postsLiked + [postID];
        } else {
          postsDisliked := postsDisliked + [postID];
        }
      }
    }
  }

  /** What addLike does to the two lists and what it returns. */
  datatype VoteOutcome = VoteOutcome(result: Result<Value>, liked: seq<string>, disliked: seq<string>)

  /** One direction of addLike: `same` is the list of the chosen direction,
      `other` the opposite one; `switched` is the code returned when a vote in
      the other direction was replaced. */
  datatype Toggle = Toggle(result: Result<Value>, same: seq<string>, other: seq<string>)

  function ToggleVote(like: Value, switched: int, conflict: string, postID: string,
                      same: seq<string>, other: seq<string>, removeStatus: Option<int>, appendStatus: Option<int>)
    : (t: Toggle)
  {
    if postID in same then Toggle(Err(Thrown(400, conflict)), same, other)
    else if postID in other && !Succeeded(removeStatus) then Toggle(Err(InternalError), same, other)
    else
      var other' := if postID in other then RemoveAt(other, IndexOf(other, postID)) else other;
      var code := if postID in other then Num(switched) else like;
      if !Succeeded(appendStatus) then Toggle(Err(InternalError), same, other')
      else Toggle(Ok(code), same + [postID], other')
  }

  /** The specification of addLike(like, postID, userID) on the stored lists;
      `removeStatus` and `appendStatus` are the store's answers to the removal
      (if one is issued) and to the append. */
  function Vote(like: Value, postID: string, liked: seq<string>, disliked: seq<string>,
                removeStatus: Option<int>, appendStatus: Option<int>): VoteOutcome
  {
    if LooseEqualsNumber(like, 1) then
      var t := ToggleVote(like, 2, "Post is already liked", postID, liked, disliked, removeStatus, appendStatus);
      VoteOutcome(t.result, t.same, t.other)
    else
      var t := ToggleVote(like, -2, "Post is already disliked", postID, disliked, liked, removeStatus, appendStatus);
      VoteOutcome(t.result, t.other, t.same)
  }

  /** addLike(like, postID, userID). `user` is the stored user the lookup
      found (null when the answer has no item); `getStatus` the store's answer
      to that lookup. */
  method AddLike(like: Value, postID: string, user: StoredUser?, getStatus: Option<int>,
                 removeStatus: Option<int>, appendStatus: Option<int>) returns (r: Result<Value>)
    modifies user
    ensures !Succeeded(getStatus) ==> r == Err(InternalError) && (user != null ==> unchanged(user))
    ensures Succeeded(getStatus) && user == null ==> r == Err(Fault)
    ensures Succeeded(getStatus) && user != null ==>
      var v := Vote(like, postID, old(user.postsLiked), old(user.postsDisliked), removeStatus, appendStatus);
      r == v.result && user.postsLiked == v.liked && user.postsDisliked == v.disliked
  {
    var fetched := ThrowIfError(getStatus);
    if fetched.Fail? {
      return Err(fetched.error);
    }
    if user == null {
      // reading postsDisliked of a missing item throws a TypeError
      return Err(Fault);
    }
    var dislikedList, likedList := user.postsDisliked, user.postsLiked;
    var result: Value := like;
    if LooseEqualsNumber(like, 1) {
      if postID in likedList {
        return Err(Thrown(400, "Post is already liked"));
      }
      if postID in dislikedList {
        var data := user.RemoveAtIndex(Disliked, IndexOf(dislikedList, postID), removeStatus);
        if data.Fail? {
          return Err(data.error);
        }
        result := Num(2);
      }
      var appended := user.Append(Liked, postID, appendStatus);
      if appended.Fail? {
        return Err(appended.error);
      }
    } else {
      if postID in dislikedList {
        return Err(Thrown(400, "Post is already disliked"));
      }
      if postID in likedList {
        var data := user.RemoveAtIndex(Liked, IndexOf(likedList, postID), removeStatus);
        if data.Fail? {
          return Err(data.error);
        }
        result := Num(-2);
      }
      var appended := user.Append(Disliked, postID, appendStatus);
      if appended.Fail? {
        return Err(appended.error);
      }
    }
    return Ok(result);
  }

  // -------------------------------------------------------------------
  // Properties of addLike

  /** A vote in the direction already recorded is refused with 400 and issues
      no list update. */
  lemma RepeatedVoteRefused(like: Value, postID: string, liked: seq<string>, disliked: seq<string>,
                            removeStatus: Option<int>, appendStatus: Option<int>)
    ensures var v := Vote(like, postID, liked, disliked, removeStatus, appendStatus);
      && (LooseEqualsNumber(like, 1) && postID in liked ==>
            v == VoteOutcome(Err(Thrown(400, "Post is already liked")), liked, disliked))
      && (!LooseEqualsNumber(like, 1) && postID in disliked ==>
            v == VoteOutcome(Err(Thrown(400, "Post is already disliked")), liked, disliked))
  {
  }

  /** Switching a dislike to a like removes the dislike at its first position,
      appends the like and returns 2; the opposite switch returns -2. */
  lemma SwitchingVote(postID: string, liked: seq<string>, disliked: seq<string>, removeStatus: Option<int>,
                      appendStatus: Option<int>)
    requires Succeeded(removeStatus) && Succeeded(appendStatus)
    ensures postID !in liked && postID in disliked ==>
      Vote(Num(1), postID, liked, disliked, removeStatus, appendStatus)
      == VoteOutcome(Ok(Num(2)), liked + [postID], RemoveAt(disliked, IndexOf(disliked, postID)))
    ensures postID !in disliked && postID in liked ==>
      Vote(Num(-1), postID, liked, disliked, removeStatus, appendStatus)
      == VoteOutcome(Ok(Num(-2)), RemoveAt(liked, IndexOf(liked, postID)), disliked + [postID])
  {
  }

  /** A first vote appends once and returns the direction it was given. */
  lemma FirstVote(like: Value, postID: string, liked: seq<string>, disliked: seq<string>,
                  removeStatus: Option<int>, appendStatus: Option<int>)
    requires postID !in liked && postID !in disliked && Succeeded(appendStatus)
    ensures var v := Vote(like, postID, liked, disliked, removeStatus, appendStatus);
      && v.result == Ok(like)
      && (LooseEqualsNumber(like, 1) ==> v.liked == liked + [postID] && v.disliked == disliked)
      && (!LooseEqualsNumber(like, 1) ==> v.disliked == disliked + [postID] && v.liked == liked)
  {
  }

  /** How often x occurs in s. */
  function Count(s: seq<string>, x: string): nat
  {
    multiset(s)[x]
  }

  /** A successful vote leaves the post exactly once in the chosen list and
      not at all in the other, provided it occurred at most once in each. */
  lemma {:induction false} VoteIsExclusive(like: Value, postID: string, liked: seq<string>, disliked: seq<string>,
                                           removeStatus: Option<int>, appendStatus: Option<int>)
    requires Count(liked, postID) <= 1 && Count(disliked, postID) <= 1
    requires Vote(like, postID, liked, disliked, removeStatus, appendStatus).result.Ok?
    ensures var v := Vote(like, postID, liked, disliked, removeStatus, appendStatus);
      if LooseEqualsNumber(like, 1) then Count(v.liked, postID) == 1 && Count(v.disliked, postID) == 0
      else Count(v.disliked, postID) == 1 && Count(v.liked, postID) == 0
  {
    if LooseEqualsNumber(like, 1) {
      ToggleIsExclusive(like, 2, "Post is already liked", postID, liked, disliked, removeStatus, appendStatus);
    } else {
      ToggleIsExclusive(like, -2, "Post is already disliked", postID, disliked, liked, removeStatus, appendStatus);
    }
  }

  lemma {:induction false} ToggleIsExclusive(like: Value, switched: int, conflict: string, postID: string,
                                             same: seq<string>, other: seq<string>,
                                             removeStatus: Option<int>, appendStatus: Option<int>)
    requires Count(same, postID) <= 1 && Count(other, postID) <= 1
    requires ToggleVote(like, switched, conflict, postID, same, other, removeStatus, appendStatus).result.Ok?
    ensures var t := ToggleVote(like, switched, conflict, postID, same, other, removeStatus, appendStatus);
      Count(t.same, postID) == 1 && Count(t.other, postID) == 0
  {
    var t := ToggleVote(like, switched, conflict, postID, same, other, removeStatus, appendStatus);
    assert postID !in same;
    assert multiset(t.same) == multiset(same) + multiset{postID};
    if postID in other {
      var i := IndexOf(other, postID);
      assert multiset(t.other) == multiset(other) - multiset{postID};
    } else {
      assert t.other == other;
    }
  }

  /** A vote changes the lists at the voted post only: every other post
      occurs in each list as often as before. */
  lemma VoteTouchesOnlyItsPost(like: Value, postID: string, liked: seq<string>, disliked: seq<string>,
                               removeStatus: Option<int>, appendStatus: Option<int>, other: string)
    requires other != postID
    ensures var v := Vote(like, postID, liked, disliked, removeStatus, appendStatus);
      Count(v.liked, other) == Count(liked, other) && Count(v.disliked, other) == Count(disliked, other)
  {
    if LooseEqualsNumber(like, 1) {
      ToggleTouchesOnlyItsPost(like, 2, "Post is already liked", postID, liked, disliked, removeStatus, appendStatus, other);
    } else {
      ToggleTouchesOnlyItsPost(like, -2, "Post is already disliked", postID, disliked, liked, removeStatus, appendStatus, other);
    }
  }

  lemma ToggleTouchesOnlyItsPost(like: Value, switched: int, conflict: string, postID: string,
                                 same: seq<string>, other: seq<string>,
                                 removeStatus: Option<int>, appendStatus: Option<int>, x: string)
    requires x != postID
    ensures var t := ToggleVote(like, switched, conflict, postID, same, other, removeStatus, appendStatus);
      Count(t.same, x) == Count(same, x) && Count(t.other, x) == Count(other, x)
  {
    var t := ToggleVote(like, switched, conflict, postID, same, other, removeStatus, appendStatus);
    if postID !in same && !(postID in other && !Succeeded(removeStatus)) {
      var other' := if postID in other then RemoveAt(other, IndexOf(other, postID)) else other;
      assert multiset(other')[x] == multiset(other)[x];
      assert t.other == other';
      assert multiset(same + [postID])[x] == multiset(same)[x];
      assert t.same == same || t.same == same + [postID];
    }
  }

  /** Liking twice: the second like is refused. Liking, then disliking:
      the dislike replaces the like and returns -2, and the post is left only
      in the disliked list, once. */
  lemma LikeThenLikeOrDislike(postID: string, liked: seq<string>, disliked: seq<string>, s1: Option<int>,
                              s2: Option<int>, s3: Option<int>, s4: Option<int>)
    requires Count(liked, postID) <= 1 && Count(disliked, postID) <= 1
    requires Vote(Num(1), postID, liked, disliked, s1, s2).result.Ok?
    requires Succeeded(s3) && Succeeded(s4)
    ensures var v1 := Vote(Num(1), postID, liked, disliked, s1, s2);
      && Vote(Num(1), postID, v1.liked, v1.disliked, s3, s4).result == Err(Thrown(400, "Post is already liked"))
      && Vote(Num(-1), postID, v1.liked, v1.disliked, s3, s4).result == Ok(Num(-2))
      && Count(Vote(Num(-1), postID, v1.liked, v1.disliked, s3, s4).disliked, postID) == 1
      && Count(Vote(Num(-1), postID, v1.liked, v1.disliked, s3, s4).liked, postID) == 0
  {
    var v1 := Vote(Num(1), postID, liked, disliked, s1, s2);
    VoteIsExclusive(Num(1), postID, liked, disliked, s1, s2);
    assert postID in v1.liked && postID !in v1.disliked;
    VoteIsExclusive(Num(-1), postID, v1.liked, v1.disliked, s3, s4);
  }
}
