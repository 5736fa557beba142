# Technology project backend: services and middleware in Dafny

This project models the core of a music-community backend: an Express API
over a DynamoDB single-table store and the Spotify search API. Users
register, log in, are promoted to admin, and like or dislike posts. Posts are
created, updated, flagged and listed by flag. Songs are searched upstream and
paginated.

The model covers:

- **Post service** (`post_service.dfy`):
  - `createPost` builds the stored record; its `class` key is removed from the record returned.
  - `updatePost` runs its ordered checks, then fills undefined attributes in place from the stored post.
  - `getPost`, both as written and corrected.
  - `updatePostFlag` and `getFlaggedPost`.
- **User service** (`user_service.dfy`):
  - `register`, `login` and `createToken`.
  - The `updateRole` rule.
  - The `addLike` vote toggle. It runs over a stored user's two vote lists, `postsLiked` and `postsDisliked`, with remove-at-index and append updates.
- **Song service** (`song_service.dfy`):
  - The `QBuilder` class and the loop that builds the upstream search string.
  - `constructPageURL`.
  - The offset check and the pagination arithmetic of `getSongs`.
  - `cleanData`.
- **dynamoUtilities** (`dynamo_utilities.dfy`): `throwIfError`.
- **routerUtilities** (`router_utilities.dfy`): `handleServiceError`, `validateBody` with its username and password rules, and `validateBodyString`.
- **Middleware**:
  - the post-route validators (`post_middleware.dfy`);
  - the user-route validators (`user_middleware.dfy`);
  - `getToken` and the four authenticators (`auth_middleware.dfy`).

JavaScript semantics the code relies on are written out in `js.dfy`:

- truthiness and `===`;
- `Number()`, `isNaN`, `parseInt` and loose `==` against a number;
- `<` and `>` against a number;
- template-literal conversion;
- `split`/`join` on one separator character;
- thrown `{status, message}` objects.

Each store call is represented two ways:

- by the request the service sends (`Exchange.request`);
- by the status code of the store's answer, which is an input. `None` stands for no answer object.

The same goes for the upstream song search, the id generator, password hashing and comparison, token signing and token verification. Each is a parameter of the operation that uses it.

Some behaviour of the code that is easy to misread:

- The like/dislike toggle `addLike` (src/services/userService.js:78-114) works on the user's own `postsLiked` and `postsDisliked` lists, not on a list held by the post.
- `getPost` (src/services/postService.js:56-62) rejects only a missing answer object; see Findings.
- `createPost` (src/services/postService.js:6-20) stores exactly seven keys: `class`, `itemID`, `postedBy`, `description`, `score`, `title` and `isFlagged`. It stores no replies, likes or tags.
- The username validators take a `UsernameRule`. `AsWritten` is the rule the code runs (src/utilities/routerUtilities.js:39-41, src/middleware/userMiddleware.js:10-12). `Corrected` is the rule their message describes; see Findings.

## Model

| member | source | states |
|---|---|---|
| DynamoUtilities.ThrowIfError | src/utilities/dynamoUtilities.js:27-35 | fails exactly when there is no answer or its status is at least 400, and then always with 500 "Internal Server Error" |
| DynamoUtilities.ThrowIfErrorBoundary | src/utilities/dynamoUtilities.js:28-29 | 399 passes; 400 and a missing answer both fail with the internal error |
| Js.ParseIntPrefix | src/services/songService.js:17 | parseInt yields a number exactly when a digit follows the optional sign |
| Js.DecimalRoundTrip | src/services/songService.js:17 | an integer rendered in decimal reads back as itself through Number and through parseInt |
| Js.ParseIntIgnoresTail | src/services/songService.js:17 | parseInt stops at the first non-digit and yields the value of the digit prefix |
| Js.Split | src/middleware/authMiddleware.js:85 | split yields at least one field, and no field contains the separator |
| Js.JoinSplit | src/middleware/authMiddleware.js:85 | joining the fields of a split with the separator gives back the string |
| Js.SplitJoin | src/middleware/authMiddleware.js:85 | splitting a join of separator-free fields gives back the fields |
| RouterUtilities.HandleServiceError | src/utilities/routerUtilities.js:3-12 | an error with no truthy status becomes 500 "Internal Server error"; otherwise status and message are passed on unchanged |
| RouterUtilities.ValidateBody | src/utilities/routerUtilities.js:22-53 | in order: a missing required property gets 400 "Missing required property <name>"; a present property failing the callback gets 400 "Invalid property <name>"; then a username gets the username rules under the chosen rule (as the code runs them with `AsWritten`) and a password the password rules; a TypeError is thrown exactly when an accepted username or password is null or undefined; everything else, an absent optional property included, goes to next |
| RouterUtilities.UsernameVerdict | src/utilities/routerUtilities.js:35-42 | as written: a null or undefined name throws a TypeError; shorter than 4 gets "Username must be at least 4 characters long"; passes exactly when the length is at least 4 and no ASCII letter or digit appears; every other name gets "Username must contain a letter or number" |
| RouterUtilities.UsernameVerdictIntended | src/utilities/routerUtilities.js:35-42 | the rule the message states: a null or undefined name throws a TypeError; shorter than 4 gets the too-short reply; passes exactly when the length is at least 4 and at least one ASCII letter or digit appears; every other name gets "Username must contain a letter or number" |
| RouterUtilities.UsernameRuleInverted | src/utilities/routerUtilities.js:39-41 | as written, "alice" is refused and "____" accepted; the intended rule decides both the other way |
| RouterUtilities.PasswordVerdict | src/utilities/routerUtilities.js:43-50 | a null or undefined password throws a TypeError; shorter than 6 gets "Password must be at least 6 characters long"; passes exactly when the length is at least 6 and the password has a non-alphanumeric character and a digit; every other password gets "Password must contain a special character and a number" |
| RouterUtilities.UsernameCheck | src/utilities/routerUtilities.js:35-42 | the username rules under the chosen rule: a TypeError exactly for a null or undefined name; shorter than 4 gets the too-short reply; under `AsWritten` next iff the length is at least 4 and no ASCII letter or digit appears, under `Corrected` iff one does; any other name of length at least 4 gets the characters reply |
| RouterUtilities.ValidateBodyRefusesAlice | src/utilities/routerUtilities.js:35-42 | the composed validator as the code runs it refuses "alice" with "Username must contain a letter or number"; under the corrected rule it passes |
| RouterUtilities.ValidateBodyString | src/utilities/routerUtilities.js:55-57 | validateBody with the string check: a missing required field gets "Missing required property"; an absent optional one goes to next; a present field that is not a valid string gets "Invalid property"; a valid one goes to next, or through the username or password rules for those two names (a TypeError for a null or undefined one) |
| PostMiddleware.ScoreAcceptsRange | src/middleware/postMiddleware.js:9 | the score predicate holds exactly for values converting to a number in [0, 100] (0 and 100 in, -1 and 101 out) |
| PostMiddleware.LikeAcceptsPlusMinusOne | src/middleware/postMiddleware.js:19 | the like predicate holds exactly for values converting to 1 or -1 |
| PostMiddleware.ValidateTitle | src/middleware/postMiddleware.js:4-6 | "title": absent gets 400 "Missing required property title" if required, else next; present goes to next iff it is a valid string, else 400 "Invalid property title" |
| PostMiddleware.ValidateScore | src/middleware/postMiddleware.js:8-11 | "score": absent gets 400 "Missing required property score" if required, else next; present goes to next iff it converts to a number in [0, 100], else 400 "Invalid property score" |
| PostMiddleware.ValidateTextBody | src/middleware/postMiddleware.js:13-15 | "text": absent gets 400 "Missing required property text" if required, else next; present goes to next iff it is a valid string, else 400 "Invalid property text" |
| PostMiddleware.ValidateLike | src/middleware/postMiddleware.js:18-20 | "like": absent gets 400 "Missing required property like" if required, else next; present goes to next iff it converts to 1 or -1, else 400 "Invalid property like" |
| UserMiddleware.ValidateRole | src/middleware/userMiddleware.js:3-37 | passes iff the role is "user" or "admin"; otherwise 400 "Invalid role <role>" |
| UserMiddleware.ValidateUsername | src/middleware/userMiddleware.js:5-15 | does nothing when the field check has already answered; otherwise a null or undefined name throws a TypeError, shorter than 4 gets the too-short 400, under `AsWritten` it goes to next iff the length is at least 4 and no ASCII letter or digit appears (under `Corrected`, iff one does), and every other name gets the characters 400 |
| UserMiddleware.ValidateUsernameRefusesAlice | src/middleware/userMiddleware.js:5-15 | validateUsername as the code runs it refuses "alice" for lacking a letter or number; under the corrected rule it passes |
| UserMiddleware.ValidatePassword | src/middleware/userMiddleware.js:17-27 | does nothing when the field check has already answered; otherwise a null or undefined password throws a TypeError, shorter than 6 gets the too-short 400, next iff the length is at least 6 and there is a special character and a digit, and every other password gets the characters 400 |
| AuthMiddleware.GetToken | src/middleware/authMiddleware.js:84-87 | undefined without a header; an empty header is returned as it is; any other header gives field 1 of its split at spaces, or undefined when there is no such field |
| AuthMiddleware.GetTokenOfBearer | src/middleware/authMiddleware.js:84-87 | the header "<scheme> <token>" yields the token |
| AuthMiddleware.GetTokenWithoutSpace | src/middleware/authMiddleware.js:84-87 | a header without a space yields no usable token |
| AuthMiddleware.Authenticate | src/middleware/authMiddleware.js:5-17 | no token gets 401 "Unauthorized Access"; a token that fails verification gets 401 "Unauthorized Access, try relogging"; passes iff the token verifies, with the decoded user |
| AuthMiddleware.PostOwnerOrAdminAuthenticate | src/middleware/authMiddleware.js:19-41 | no token gets 401 "Unauthorized Access"; a failed verification or lookup gets 401 "try relogging"; a found post the user neither posted nor administers gets 401 "Wrong User or Not Admin"; passes iff none of these, with the decoded user |
| AuthMiddleware.ReplyOwnerOrAdminAuthenticate | src/middleware/authMiddleware.js:43-65 | the same rule for the reply: no token 401, a failed verification or lookup 401 "try relogging", a non-owner non-admin 400 "Unauthorized access - wrong user or not admin"; passes iff none of these |
| AuthMiddleware.AdminAuthenticate | src/middleware/authMiddleware.js:67-82 | no token gets 401 "Unauthorized Access"; a failed verification gets 401 "try relogging"; a verified non-admin gets 401 "Privilege too low"; passes iff the role is "admin", with the decoded user |
| AuthMiddleware.AdminPassesEveryCheck | src/middleware/authMiddleware.js:5-82 | a request the admin check lets through passes every other authenticator with the same user |
| AuthMiddleware.OwnerPassesPostCheck | src/middleware/authMiddleware.js:31-37 | an authenticated poster passes the post ownership check, admin or not |
| PostService.CreatePost | src/services/postService.js:6-20 | one put of a record with exactly class "post", the new id, postedBy, description, score, title and isFlagged 0; returns it without "class" iff the put succeeds, else 500 |
| PostService.CheckUpdate | src/services/postService.js:25-44 | in order, each only once the earlier checks pass: a bad flag gets 400 "provided flag must be a number (0 or 1)"; no updatable attribute gets 400 "No updatable attributes provided…"; a non-number score gets 400 "provided score must be of type number"; a non-string description gets 400 "provided description must be of type string"; a non-string title gets 400 "provided title must be of type string"; passes iff none applies |
| PostService.Merged | src/services/postService.js:46-50 | same keys; undefined attributes take the post's value; defined ones are kept |
| PostService.MergeIdempotent | src/services/postService.js:46-50 | merging again with the same post changes nothing |
| PostService.MergeFillsFromPost | src/services/postService.js:46-50 | no key the post defines is left undefined by the merge |
| PostService.UpdatePost | src/services/postService.js:22-54 | a failed check leaves the attributes untouched and issues nothing; otherwise the attributes become the merge, are sent once, and are returned iff the store succeeds |
| PostService.UpdateOnlyTitle | __tests__/postService.test.js:336-351 | updating only the title passes the checks and keeps the stored score and description |
| PostService.GetPost | src/services/postService.js:56-62 | as written: fails with 400 "Post not found" only when there is no answer object, and otherwise returns the whole answer |
| PostService.GetPostPassesMissingItem | src/services/postService.js:58-61 | a 200 answer without an item is returned as the post; the corrected lookup rejects it |
| PostService.GetPostChecked | src/services/postService.js:56-62 | corrected: returns the item iff the answer has one, else 400 "Post not found" |
| PostService.UpdatePostFlag | src/services/postService.js:64-77 | an undefined flag gets 400; a non-number or out-of-range flag gets 400; the store is asked once with (id, flag) iff the flag is 0 or 1 |
| PostService.GetFlaggedPost | src/services/postService.js:79-86 | a value comparing above 1 or below 0 gets 400 with no query; otherwise one query, whose Items are returned unchanged iff it succeeds, and a failed query gives 500 "Internal Server Error" |
| PostService.FlagChecksAgreeOnNumbers | src/services/postService.js:71-83 | for numbers, the flag query and the flag update accept the same values |
| UserService.Register | src/services/userService.js:7-28 | a taken username gets 400 and nothing is stored; otherwise, whatever the store answers, one put of a record with exactly class "user", the new id, the username, the hash as password, role "user" and empty vote lists; it is returned without the password iff the put succeeds, else 500 |
| UserService.Login | src/services/userService.js:30-42 | a failed query is 500; succeeds iff the first user found matches the password, returning the token for that user without password; otherwise 400 |
| UserService.CreateToken | src/services/userService.js:116-122 | the signed object is the user without its password |
| UserService.UpdateRole | src/services/userService.js:44-71 | in order: a failed lookup is 500; a missing user 400; the same role 400; a role other than admin 400; the update is sent iff a non-admin is promoted to admin, and its status is returned on success |
| UserService.PromotionOnlyOnce | src/services/userService.js:56-66 | a successful call was a promotion to admin, and repeating it on the updated user gets "User is already role admin" |
| UserService.IndexOf | src/services/userService.js:91 | indexOf gives the first position of the element |
| UserService.RemoveAt | src/services/userService.js:91-92 | removing at an index shortens the list by one, takes away exactly that element, and keeps the other elements in their order |
| UserService.StoredUser.RemoveAtIndex | src/services/userService.js:91-92 | the chosen list loses the element at the index iff the store succeeds; the other list is unchanged |
| UserService.StoredUser.Append | src/services/userService.js:95-96 | the chosen list gains the post id at the end iff the store succeeds; the other list is unchanged |
| UserService.AddLike | src/services/userService.js:78-114 | a failed lookup is 500 and changes nothing; otherwise the result and both lists are exactly those of the vote specification |
| UserService.RepeatedVoteRefused | src/services/userService.js:83-104 | a like of a liked post, or a dislike of a disliked one, gets 400 and leaves both lists unchanged |
| UserService.SwitchingVote | src/services/userService.js:90-113 | switching direction removes the old vote at its first index, appends the new one and returns 2 or -2 |
| UserService.FirstVote | src/services/userService.js:95-113 | a first vote appends once to the chosen list and returns the direction given |
| UserService.VoteIsExclusive | src/services/userService.js:78-114 | after a successful vote the post is once in the chosen list and absent from the other, if it was at most once in each before |
| UserService.ToggleIsExclusive | src/services/userService.js:83-96 | one direction of the toggle leaves the post once in its list and not in the opposite one |
| UserService.VoteTouchesOnlyItsPost | src/services/userService.js:78-114 | a vote leaves every other post's occurrences in both lists unchanged |
| UserService.ToggleTouchesOnlyItsPost | src/services/userService.js:83-96 | one direction of the toggle leaves every other post's occurrences unchanged |
| UserService.LikeThenLikeOrDislike | src/services/userService.js:78-114 | after a like, a second like is refused, and a dislike returns -2 and leaves the post only in the disliked list, once |
| SongService.QBuilder.constructor | src/services/songService.js:102-104 | a new builder has the empty search string |
| SongService.QBuilder.AddQuery | src/services/songService.js:106-115 | an undefined value leaves q unchanged; otherwise it appends key%3Avalue, after "+" unless q is empty; returns the builder itself |
| SongService.QBuilder.Build | src/services/songService.js:117-119 | returns the accumulated string |
| SongService.BuildQuery | src/services/songService.js:24-28 | the built string is the "+"-join of key%3Avalue for the defined pairs, in order |
| SongService.QueryStringEmpty | src/services/songService.js:106-115 | the search string is empty iff no pair is defined |
| SongService.QueryStringStep | src/services/songService.js:106-115 | adding one pair to the search string has exactly the effect addQuery has on q |
| SongService.QueryStringNoLeadingPlus | src/services/songService.js:106-115 | the search string never starts with "+" when no key does |
| SongService.QueryStringSplitsIntoTerms | src/services/songService.js:106-119 | with no "+" in keys or values, splitting the search string at "+" gives back the terms in order |
| SongService.ConstructPageURL | src/services/songService.js:83-96 | no offset gives ""; otherwise the base address, &key=value for each defined field in order, then &offset=n |
| SongService.PageURLNotEmpty | src/services/songService.js:88-95 | a link with an offset is never empty |
| SongService.PageURLFields | src/services/songService.js:88-95 | a link splits at "&" into the base, the defined fields and offset=n, and that offset passes the offset check as n |
| SongService.ParseOffset | src/services/songService.js:16-22 | an absent offset is 0; a given one passes iff parseInt yields a non-negative number, which is the result; otherwise 400 |
| SongService.CleanData | src/services/songService.js:60-74 | fails iff some track has fewer than two album images; otherwise length and order are kept, the id becomes spotifyId, and the image is the second album image |
| SongService.PreviousOffset | src/services/songService.js:34-37 | the total cancels out: offset - limit if positive, else 0 |
| SongService.NextOffset | src/services/songService.js:34-41 | the next offset is offset + limit iff upstream reports a next page |
| SongService.PreviousUndoesNext | src/services/songService.js:34-43 | going to the next page and back returns to the same offset |
| SongService.PageFrom | src/services/songService.js:30-51 | any upstream or cleaning failure becomes 502; otherwise the songs are the cleaned tracks, showMore is the link at the next offset ("" iff there is no next page), and showPrevious is the link at the previous offset when the offset is positive and "" when it is 0 |
| SongService.GetSongs | src/services/songService.js:4-52 | no truthy search field gets 400; then a bad offset gets 400 before any upstream call; otherwise one upstream request with the built search string and the offset, answered by the page |

## Left out

- `deleteUser` in src/services/userService.js: one store call whose answer is not inspected.
- Store command construction (src/repository/*), DynamoDB, S3 and the Spotify `fetch`: each store or upstream answer is an input.
- `runCommand`: its answer is such an input.
- bcrypt hashing and comparison, and JWT signing and verification: these are parameters.
- `isValidString` and `isValidBodyProperty`: not part of this model; they are parameters.
- Express routing: src/controller/*, src/index.js and the response object. A middleware's effect is a verdict value.
- `console` logging.
- `checkLike`, `checkTags`, `deleteReply`, `createReply`, `getPostById`, `getReplyOfPost` and `seePosts`: src/services/postService.js does not define them, so they are not part of this model. The post or reply the ownership checks look up is a parameter.
- Numbers are integers: fractional values, infinities and NaN-valued fields are not represented. NaN appears only as a failed conversion.
- Js.StringToNumber and Js.ParseIntPrefix: only an optional sign followed by decimal digits is read as JavaScript reads it. Whitespace, hexadecimal, exponent and fractional forms give definite results that differ from JavaScript's; the members that depend on them are listed next.
- SongService.ParseOffset: an offset with leading whitespace (" 5") is refused with 400, where parseInt reads 5; "0x10" is read as 0, where parseInt reads 16; "2.5" is read as 2, as parseInt does.
- PostMiddleware.ValidateScore: a score string with a fraction, an exponent, a hexadecimal form or surrounding whitespace ("50.0", " 50", "5e1") converts to NaN here and is refused, where Number accepts it.
- PostMiddleware.ValidateLike: "1.0", " 1" and "1e0" convert to NaN here and are refused, where Number reads 1 and accepts them.
- PostService.GetFlaggedPost: a string such as "1.5" or " 2" converts to NaN here and is queried, where JavaScript compares it as a number and refuses it with 400.
- Js.DecimalRoundTrip: integers here are unbounded, unlike JavaScript's double-precision numbers. JavaScript loses precision above 2^53 (`parseInt("9007199254740993")` is 9007199254740992) and writes numbers of magnitude 10^21 or more in exponent form (`${1e21}` is "1e+21", which `parseInt` reads as 1). So `Js.IntToDecimal`, `SongService.ParseOffset`, `SongService.NextOffset` and the offset read-back of `SongService.PageURLFields` are exact only below 2^53 in JavaScript, and that read-back fails there from 10^21.
- Js.LengthOf: an object's own `length` property is not modelled; any value other than a string or an array has no length here. `RouterUtilities.UsernameVerdict`, `RouterUtilities.UsernameVerdictIntended`, `RouterUtilities.PasswordVerdict`, `RouterUtilities.UsernameCheck`, `RouterUtilities.ValidateBody`, `UserMiddleware.ValidateUsername` and `UserMiddleware.ValidatePassword` therefore never give the too-short reply for an object such as `{"length": 2}`, which src/utilities/routerUtilities.js:36/44 and src/middleware/userMiddleware.js:7/19 would. On the routes, `isValidString` rejects such values first, so this matters only for a callback that accepts objects.
- Lengths: string length counts characters, not UTF-16 code units.
- Object identity: arrays and other objects are never `===` to each other in this model, because it does not track references.
- `SongService.CleanData`: a missing `external_urls` on a track or artist is not modelled (only the album image is), because the cleaned fields are modelled as already extracted.
- `SongService.GetSongs`: query parameters given as arrays (repeated keys) are not modelled. Each search field is a string or undefined.
- UserMiddleware.ValidateUsername: src/middleware/userMiddleware.js:1 imports `isValidBodyProperty` from src/utilities/routerUtilities.js, whose exports (lines 59-63) do not include it. As written, every call therefore throws a TypeError before any check. The model takes the helper's result as the parameter `fieldPresent` and models the checks that follow it.
- UserMiddleware.ValidatePassword: the same missing export (src/middleware/userMiddleware.js:1, 18) makes every call throw a TypeError as written; the model takes the helper's result as `fieldPresent`.
- UserService.AddLike: src/services/userService.js:91, 95, 106 and 110 call `userDAO.removeDislike`, `updateLike`, `removeLike` and `updateDislike`, which src/repository/userDAO.js:121-129 does not export. As written, every call that passes the conflict checks would therefore throw a TypeError. The model assumes instead that these are a remove-at-index and an append on the user's list, as `postDAO.removeLike` and `postDAO.sendLike` (src/repository/postDAO.js:47-70) are for posts.
- UserService.AddLike: list updates take effect exactly when the store reports success. A store that applies an update and then reports failure is not modelled.
- Races between concurrent requests: each operation is modelled as one sequential run.
- eslint.config.mjs: tooling configuration.

## Findings

| source | as written | input that shows it | evidently intended | confidence | as-written member | corrected member |
|---|---|---|---|---|---|---|
| src/utilities/routerUtilities.js:39-41 (same rule in src/middleware/userMiddleware.js:10-12) | refuses a username that contains an ASCII letter or digit; `ValidateBody` and `ValidateUsername` with `AsWritten` run this rule, with `Corrected` the intended one | "alice" is refused by both validators with "Username must contain a letter or number"; "____" is accepted | refuse a username that contains no ASCII letter or digit | high (not executed) | RouterUtilities.ValidateBodyRefusesAlice | RouterUtilities.UsernameVerdictIntended |
| src/services/postService.js:56-62 | checks that the store answered, not that the answer holds an item, and returns the whole answer | an answer with status 200 and no Item is returned as the post | 400 "Post not found with id" when the answer has no Item, and the Item itself (not the whole answer) returned otherwise; `GetPostChecked` makes both changes | medium (not executed) | PostService.GetPostPassesMissingItem | PostService.GetPostChecked |
