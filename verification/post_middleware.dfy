/** The request-body validators of the post routes. Each is validateBody
    applied to one field with its own predicate; `required` is the flag the
    route passes (true unless the route allows the field to be omitted).
    `isValidString` stands for the string check of a helper module that is
    not part of this model. */
module PostMiddleware {
  import opened Js
  import opened RouterUtilities

  /** `!isNaN(score) && score >= 0 && score <= 100`, with JavaScript's
      number conversion of the field. */
  predicate IsValidScore(score: Value)
  {
    !IsNaN(score) && !LessThan(score, 0) && !GreaterThan(score, 100)
  }

  /** `!isNaN(like) && (like == 1 || like == -1)`. */
  predicate IsValidLike(like: Value)
  {
    !IsNaN(like) && (LooseEqualsNumber(like, 1) || LooseEqualsNumber(like, -1))
  }

  /** A score is accepted exactly when it converts to a number in [0, 100]. */
  lemma ScoreAcceptsRange(score: Value)
    ensures IsValidScore(score) <==> ToNumber(score).Some? && 0 <= ToNumber(score).value <= 100
    ensures IsValidScore(Num(0)) && IsValidScore(Num(100))
    ensures !IsValidScore(Num(-1)) && !IsValidScore(Num(101))
  {
  }

  /** A like is accepted exactly when it converts to 1 or -1; for number
      values, exactly 1 and -1. */
  lemma LikeAcceptsPlusMinusOne(like: Value)
    ensures IsValidLike(like) <==> ToNumber(like) == Some(1) || ToNumber(like) == Some(-1)
    ensures like.Num? ==> (IsValidLike(like) <==> like.n == 1 || like.n == -1)
  {
  }

  /** validateTitle(required): "title" must be a valid string. */
  function ValidateTitle(required: bool, body: Object, isValidString: Value -> bool): (v: Verdict)
    ensures "title" !in body ==> v == (if required then Answer(MissingProperty("title")) else Next)
    ensures "title" in body ==>
      v == (if isValidString(body["title"]) then Next else Answer(InvalidProperty("title")))
  {
    ValidateBody("title", (t: Value) => isValidString(t), required, body, AsWritten)
  }

  /** validateScore(required): "score" must convert to a number in [0, 100]. */
  function ValidateScore(required: bool, body: Object): (v: Verdict)
    ensures "score" !in body ==> v == (if required then Answer(MissingProperty("score")) else Next)
    ensures "score" in body ==>
      v == (if ToNumber(body["score"]).Some? && 0 <= ToNumber(body["score"]).value <= 100 then Next
            else Answer(InvalidProperty("score")))
  {
    ScoreAcceptsRange(Get(body, "score"));
    ValidateBody("score", IsValidScore, required, body, AsWritten)
  }

  /** validateTextBody(required): "text" must be a valid string. */
  function ValidateTextBody(required: bool, body: Object, isValidString: Value -> bool): (v: Verdict)
    ensures "text" !in body ==> v == (if required then Answer(MissingProperty("text")) else Next)
    ensures "text" in body ==>
      v == (if isValidString(body["text"]) then Next else Answer(InvalidProperty("text")))
  {
    ValidateBody("text", (t: Value) => isValidString(t), required, body, AsWritten)
  }

  /** validateLike(required): "like" must convert to 1 or -1. */
  function ValidateLike(required: bool, body: Object): (v: Verdict)
    ensures "like" !in body ==> v == (if required then Answer(MissingProperty("like")) else Next)
    ensures "like" in body ==>
      v == (if ToNumber(body["like"]) == Some(1) || ToNumber(body["like"]) == Some(-1) then Next
            else Answer(InvalidProperty("like")))
  {
    LikeAcceptsPlusMinusOne(Get(body, "like"));
    ValidateBody("like", IsValidLike, required, body, AsWritten)
  }
}
