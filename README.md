# pet_chat_back core, modelled in Dafny

A model of the core of the pet_chat_back backend: an Express server for a
social network on a MongoDB database and a Redis cache. It covers:

- the Redis codecs for users and posts. A user is flattened into 20
  field/value pairs under `users:<key>` and ranked in the sorted set `user`.
  A post is flattened into 16 pairs under `posts:<key>` and ranked in
  `post`. The author's post counter is read with HMGET and written back in
  the same `multi`;
- reading a user back from the cache, field by field, through
  `Helpers.parseJson`;
- the string helpers: name capitalisation, lower-casing, the random-digit
  uId, and `parseJson`;
- the controllers: sign-up, sign-in, the current user, password reset
  request and reset, and creating a post;
- the Joi validation decorator in front of them, and the two
  authentication guards;
- the start-up configuration check;
- the worker that writes a queued post to the database.

These JavaScript semantics are modelled as the core relies on them:

- `${…}` of numbers and of `undefined`;
- `parseInt(s, 10)`;
- `JSON.stringify` and `JSON.parse`, for null, booleans, integers,
  strings, arrays and objects;
- truthiness of optional strings;
- the hex rendering of a byte buffer.

The Redis server is an in-memory class `RedisStore.Store`. Its hashes,
sorted sets and connection flag are fields that the cache methods update
in place. Whether the server answers each round trip is a parameter
(`Replies`).

Outside collaborators are parameters of the operations that use them:

- the MongoDB lookups (by name or email, by e-mail, by reset token, by id);
- `JWT.sign` and `JWT.verify`;
- the Cloudinary upload result;
- the random digits and random bytes;
- the clock;
- the e-mail template renderers;
- what Joi's `schema.validate` answers.

Queue jobs are returned as values (`Http.Job`). Each handler ends in one
of three ways (`Http.Ending`): it passes an error to `next`, it throws,
or it writes a status and a body.

Several proved lemmas state behaviour that the code has and its names
suggest it did not intend. Each is modelled as written:

- the post counter is read from `postsCount` but written to `postCount`,
  so it never advances (`PostCache.CounterNeverAdvances`);
- a new user's first post stores "NaN" (`PostCache.FirstPostAfterSignUp`);
- `blocked` is read back with a `;` appended, so it never parses
  (`UserCache.WrittenBlocked`);
- the reset expiry multiplies the clock by an hour's milliseconds instead
  of adding them (`Password.ExpiryIsNotAnHourAhead`);
- sign-in signs the auth record's id as `userId`, where sign-up signs the
  user record's id (`SignIn.SessionsNameDifferentIds`).

Where the repository's own tests expect something other than what the
code does, the model follows the code:

- `create-post` neither emits on a socket nor queues a database job,
  although `src/features/post/controllers/test/create-post.test.ts:54-81`
  expects both.

Two other readings are also the code's own:

- a field missing from the cache reads back as the text "undefined" (what
  `parseJson(`${undefined}`)` gives), not as a zero value;
- the `omit` call in sign-up drops its result, so the queued and returned
  user keeps its uId, name, email, colour and password.

## Model

The source's own functions are modelled by definitions without contracts
of their own; the lemmas and methods in the table below state their
properties:

- `Json.Stringify` and `Json.Parse`: `JSON.stringify` and `JSON.parse`
  (`src/shared/services/redis/user.cache.ts:62-74`,
  `src/shared/globals/helpers/helpers.ts:30`); specified by
  `JsonLaws.RoundTrip` and `JsonLaws.TrailingSemicolonRejected`.
- `JsText.ParseInt`: `parseInt(s, 10)` (`src/shared/globals/helpers/helpers.ts:25`,
  `src/shared/services/redis/post.cache.ts:89-95`); specified by
  `JsText.ParseIntOfIntToString` and the other `JsText.ParseIntOf…` lemmas.
- `JsText.IntToString` and `JsText.Template`: `${…}` of a number and of a
  possibly undefined value (`src/shared/services/redis/user.cache.ts:43-90`);
  specified by `JsText.ParseIntOfIntToString` and `JsText.NatToStringShortest`.
- `Helpers.FirstLatterUppercase` (`src/shared/globals/helpers/helpers.ts:3-12`);
  specified by `Helpers.FirstLatterUppercaseIsCapitalised`.
- `UserCache.DecodeUser`: the reading `getUserFromCache` returns
  (`src/shared/services/redis/user.cache.ts:113-124`); specified by
  `UserCache.DecodeUserFields` and `UserCache.ConvertAllDecodes`.
- `UserCache.SavedDb`: the keyspace after a full `saveUserToCache`
  (`src/shared/services/redis/user.cache.ts:97-101`); specified by
  `UserCache.SavedDbEffect` and `UserCache.DecodeSavedUser`.
- `PostCache.SavedPostDb`: the keyspace after a full `savePostToCache`
  (`src/shared/services/redis/post.cache.ts:86-98`); specified by
  `PostCache.QueuedWritesEffect` and `PostCache.CounterNeverAdvances`.
- `RedisStore.ApplyAll`: EXEC of a queue of commands
  (`src/shared/services/redis/post.cache.ts:98`); specified by
  `RedisStore.ApplyAllSnoc`, `RedisStore.ApplyAllElsewhere` and
  `RedisStore.Store.Exec`.


| member | source | states |
|---|---|---|
| JsText.NatToString | src/shared/services/redis/user.cache.ts:67-70 | `${n}` of a non-negative integer: a non-empty digit string denoting n, with no leading zero unless n is 0 |
| JsText.NatToStringShortest | src/shared/globals/helpers/helpers.ts:25 | the numeral of n is no longer than any digit string of k digits that denotes n |
| JsText.DigitsValueBound | src/shared/globals/helpers/helpers.ts:22-25 | n decimal digits denote a number below 10^n |
| JsText.TrimStart | src/shared/services/redis/user.cache.ts:98 | the white space `parseInt` skips: the result is a suffix of the input that starts with no white space |
| JsText.DigitRun | src/shared/services/redis/user.cache.ts:98 | the longest run of leading digits: all digits, and followed by a non-digit or by the end |
| JsText.ParseIntOfIntToString | src/shared/services/redis/post.cache.ts:95 | `parseInt` reads back every integer that a template literal renders |
| JsText.ParseIntOfSpacedDigits | src/shared/globals/helpers/helpers.ts:20-25 | `parseInt` of a space followed by a digit string is the value of those digits |
| JsText.ParseIntOfWord | src/shared/services/redis/post.cache.ts:95 | a text that starts with neither white space, a sign nor a digit reads as NaN |
| JsText.ParseIntOfNonNumerals | src/shared/services/redis/post.cache.ts:95 | "null", "undefined", "NaN" and a lone space all read as NaN |
| Helpers.LowerChar | src/shared/globals/helpers/helpers.ts:14-16 | one character lower-cased: leaves no upper-case letter, maps each upper-case letter to a lower-case one, and leaves every other character as it is |
| Helpers.UpperChar | src/shared/globals/helpers/helpers.ts:9 | one character upper-cased: the mirror of LowerChar |
| Helpers.CaseRoundTrip | src/shared/globals/helpers/helpers.ts:9 | case mapping is idempotent, and lower-then-upper (or upper-then-lower) undoes the inner mapping |
| Helpers.LowerCase | src/shared/globals/helpers/helpers.ts:14-16 | `lowerCase` keeps the length and lower-cases each character in place |
| Helpers.LowerCaseIdempotent | src/shared/globals/helpers/helpers.ts:14-16 | lower-casing twice equals lower-casing once, and the result has no upper-case letter |
| Helpers.Split | src/shared/globals/helpers/helpers.ts:6 | `split(' ')` gives at least one piece, and no piece holds a space |
| Helpers.JoinSplit | src/shared/globals/helpers/helpers.ts:6-11 | joining the pieces of a split with spaces gives the text back |
| Helpers.SplitJoin | src/shared/globals/helpers/helpers.ts:6-11 | splitting a join of space-free pieces gives the pieces back |
| Helpers.CapWordsIsCapFrom | src/shared/globals/helpers/helpers.ts:3-12 | the word-by-word map of `firstLatterUppercase` equals a character-by-character reference reading |
| Helpers.CapFromAt | src/shared/globals/helpers/helpers.ts:7-10 | character i of the reference reading: a space stays, a word's first character is upper-cased, any other is lower-cased |
| Helpers.FirstLatterUppercaseIsCapitalised | src/shared/globals/helpers/helpers.ts:3-12 | `firstLatterUppercase` keeps length and spaces, upper-cases each word's first character and lower-cases the others |
| Helpers.FirstLatterUppercaseIdempotent | src/shared/globals/helpers/helpers.ts:3-12 | capitalising a capitalised name changes nothing |
| Helpers.FirstLatterUppercaseOfLower | src/shared/globals/helpers/helpers.ts:3-16 | lower-casing a name first does not change its capitalisation |
| Helpers.DigitString | src/shared/globals/helpers/helpers.ts:19-23 | the drawn digit values as characters: same length, all digits, each with the value drawn |
| Helpers.GenerateRandomIntegers | src/shared/globals/helpers/helpers.ts:18-26 | the loop appends one drawn digit per round to " " and parses the result: NaN (None) for a length of 0 or less, otherwise the decimal value of the drawn digits, which is below 10^length |
| Helpers.GeneratedNumeralLength | src/shared/globals/helpers/helpers.ts:25 | `parseInt` drops leading zeros: the value's numeral is no longer than the digits drawn |
| Helpers.ParseJson | src/shared/globals/helpers/helpers.ts:28-34 | when `JSON.parse` succeeds the result is exactly the parsed value, and when it throws the result is the input text as a string; it never throws |
| Helpers.ParseJsonOfInt | src/shared/globals/helpers/helpers.ts:28-34 | the decimal text of an integer parses back as that number |
| Helpers.ParseJsonOfStringify | src/shared/globals/helpers/helpers.ts:28-34 | `parseJson` reads back whatever `JSON.stringify` wrote |
| Helpers.ParseJsonOfSemicolon | src/shared/globals/helpers/helpers.ts:28-34 | a stringified value with ";" appended is not JSON, so it comes back as the raw text |
| Helpers.ParseJsonOfUndefined | src/shared/globals/helpers/helpers.ts:28-34 | the text "undefined" is not JSON and comes back as that string |
| JsonLaws.EscapeCharRoundTrip | src/shared/services/redis/user.cache.ts:62-74 | one character as `JSON.stringify` escapes it is read back by the string-literal reader as that character |
| JsonLaws.EscapeRoundTrip | src/shared/services/redis/user.cache.ts:62-74 | an escaped string followed by a closing quote is read back as that string, leaving what follows |
| JsonLaws.QuoteRoundTrip | src/shared/services/redis/user.cache.ts:62-74 | a quoted string literal is parsed back as that string |
| JsonLaws.NumRoundTrip | src/shared/services/redis/user.cache.ts:67-70 | an integer's text followed by a delimiter or nothing is parsed back as that integer |
| JsonLaws.ElementsRoundTrip | src/shared/services/redis/user.cache.ts:62-64 | the elements of an array text, from any position, are read back as the remaining elements |
| JsonLaws.ArrayRoundTrip | src/shared/services/redis/user.cache.ts:62-64 | an array whose elements round-trip is parsed back from its stringified text |
| JsonLaws.MembersRoundTrip | src/shared/services/redis/user.cache.ts:72-74 | the members of an object text with distinct keys, from any position, are read back in order |
| JsonLaws.ObjectRoundTrip | src/shared/services/redis/user.cache.ts:72-74 | an object with distinct keys whose values round-trip is parsed back from its stringified text |
| JsonLaws.ValueRoundTrip | src/shared/services/redis/user.cache.ts:62-74 | every well-formed value's text, followed by a delimiter, is parsed back as that value |
| JsonLaws.RoundTrip | src/shared/services/redis/user.cache.ts:62-74 | `JSON.parse(JSON.stringify(v))` gives v back for every value with distinct object keys |
| JsonLaws.TrailingSemicolonRejected | src/shared/services/redis/user.cache.ts:118 | a stringified value followed by ";" is not JSON: `JSON.parse` throws on it |
| RedisStore.PairsMap | src/shared/services/redis/user.cache.ts:101 | the hash an `HSET` argument list writes has exactly the names at the even positions as its fields |
| RedisStore.PairsMapAt | src/shared/services/redis/user.cache.ts:101 | with distinct names, each name maps to the value that follows it |
| RedisStore.Pairs | src/shared/services/redis/user.cache.ts:43-92 | an argument list built from names and values holds the names at the even positions and each value right after its name |
| RedisStore.PairsConcat | src/shared/services/redis/user.cache.ts:92 | spreading two argument lists one after the other pairs the names of both with the values of both |
| RedisStore.LookupByLayout | src/shared/services/redis/user.cache.ts:101 | the written hash maps each distinct name to the value after it |
| RedisStore.NamesByLayout | src/shared/services/redis/user.cache.ts:101 | the written hash's fields are exactly the names of the list |
| RedisStore.HSetDbEffect | src/shared/services/redis/user.cache.ts:101 | `HSET` changes only the one hash it names, sets exactly the listed fields there, and keeps that hash's other fields |
| RedisStore.ZAddDbEffect | src/shared/services/redis/user.cache.ts:97-100 | `ZADD` changes only the one member's score in the one sorted set it names |
| RedisStore.ZAddThenHSet | src/shared/services/redis/user.cache.ts:97-101 | a `ZADD` then an `HSET` change just the named sorted set and hash; every other key stays as it was |
| RedisStore.ApplyAllSnoc | src/shared/services/redis/post.cache.ts:86-98 | a command queued last on a `multi` runs after the others |
| RedisStore.ApplyAllElsewhere | src/shared/services/redis/post.cache.ts:86-98 | queued commands that name other keys leave a key's hash and sorted set as they were |
| RedisStore.Store.constructor | src/shared/services/redis/user.cache.ts:11-13 | a new client starts closed, over the given keyspace |
| RedisStore.Store.Connect | src/shared/services/redis/user.cache.ts:94-96 | `connect` opens the connection exactly when the server answers, and the data does not change |
| RedisStore.Store.ZAddCommand | src/shared/services/redis/user.cache.ts:97-100 | `ZADD` succeeds exactly on an open connection with a server that answers and a score that is a number; on success the keyspace becomes ZAddDb of the old one, otherwise it is unchanged |
| RedisStore.Store.HSetCommand | src/shared/services/redis/user.cache.ts:101 | `HSET` succeeds exactly on an open connection with a server that answers and an even argument list; on success the keyspace becomes HSetDb of the old one, otherwise it is unchanged |
| RedisStore.Store.HMGet | src/shared/services/redis/post.cache.ts:81-84 | `HMGET` answers exactly when the connection is open and the server answers, with the field's value or null |
| RedisStore.Store.HGetAll | src/shared/services/redis/user.cache.ts:113-115 | `HGETALL` answers exactly when the connection is open and the server answers, with the whole hash (empty when it is missing) |
| RedisStore.Store.Exec | src/shared/services/redis/post.cache.ts:98 | `exec` runs the queued commands in order (ApplyAll) when the connection is open and the server answers, and runs none otherwise |
| Entities.IdsJson | src/shared/services/redis/user.cache.ts:62-64 | a list of object ids as `JSON.stringify` sees it: an array of the same length holding each id's text |
| Entities.EncodingsWellFormed | src/shared/services/redis/user.cache.ts:62-74 | the id lists, notification settings, social links and reactions the caches stringify all have distinct keys, so they can be read back |
| UserCache.UserFieldNamesDistinct | src/shared/services/redis/user.cache.ts:43-90 | the names under which a user is stored are twenty distinct strings |
| UserCache.UserFieldsPairs | src/shared/services/redis/user.cache.ts:43-92 | `dataToSave` pairs the twenty names with the twenty values |
| UserCache.UserFieldsLayout | src/shared/services/redis/user.cache.ts:43-92 | `dataToSave` is 40 strings, with the fixed names at the even positions, in order |
| UserCache.UserFieldsEven | src/shared/services/redis/user.cache.ts:92-101 | the HSET argument list has an even length |
| UserCache.FirstValueAt | src/shared/services/redis/user.cache.ts:43-58 | the first seven values are those of the first list |
| UserCache.SecondValueAt | src/shared/services/redis/user.cache.ts:60-75 | values 7 to 13 are those of the second list |
| UserCache.UserValuesAt | src/shared/services/redis/user.cache.ts:43-75 | the written values: the username as given, the call's date as createdAt, `${…}` of the three counters, and the JSON text of blocked, blockedBy, notifications and social |
| UserCache.UserFieldNamesAt | src/shared/services/redis/user.cache.ts:43-75 | the positions of the fields that are read back among the names |
| UserCache.DecodeUserFields | src/shared/services/redis/user.cache.ts:113-125 | the reading keeps every field of the hash, adds the eight converted ones, and returns every field it does not convert as its text |
| UserCache.DecodeRaw | src/shared/services/redis/user.cache.ts:113-125 | a field that is not converted is returned as its text |
| UserCache.RawReply | src/shared/services/redis/user.cache.ts:113-115 | the HGETALL reply: every field of the hash, as text |
| UserCache.PartialNone | src/shared/services/redis/user.cache.ts:113-115 | before any conversion the reply is the hash as text |
| UserCache.StepPartial | src/shared/services/redis/user.cache.ts:116-123 | converting a field that has not been converted yet extends the partial reading by that field |
| UserCache.FourSteps | src/shared/services/redis/user.cache.ts:116-123 | four conversions of fresh fields, in sequence, extend the partial reading by those four |
| UserCache.FirstFourSteps | src/shared/services/redis/user.cache.ts:116-119 | the first four statements convert createdAt, postsCount, blocked and blockedBy |
| UserCache.LastFourSteps | src/shared/services/redis/user.cache.ts:120-123 | the last four statements complete the reference reading |
| UserCache.ConvertAllDecodes | src/shared/services/redis/user.cache.ts:113-125 | the statement-by-statement conversion equals the reference reading DecodeUser |
| UserCache.UserCache.constructor | src/shared/services/redis/user.cache.ts:11-13 | the cache uses the given client |
| UserCache.UserCache.SaveUserToCache | src/shared/services/redis/user.cache.ts:15-106 | open the connection if it is closed, ZADD `user` with the parsed userId as score, then HSET `users:<key>` with the 40 strings. The result is success exactly when all three steps succeed; every failure is "Server error, try again". The keyspace is unchanged, ZADD only, or the full save, according to how far the steps went |
| UserCache.UserCache.GetUserFromCache | src/shared/services/redis/user.cache.ts:108-130 | open if closed, HGETALL, then convert the eight fields; the reply is DecodeUser of the stored hash, the data is unchanged, and a failure is the server error |
| UserCache.SavedDbEffect | src/shared/services/redis/user.cache.ts:97-101 | a successful save ranks key in `user` with the score and writes every pair over `users:<key>`; no other sorted set or hash changes |
| UserCache.SavedHashIs | src/shared/services/redis/user.cache.ts:101 | after a save, `users:<key>` is its old fields overwritten by the user's pairs |
| UserCache.WrittenAt | src/shared/services/redis/user.cache.ts:101 | after the write, the j-th name holds the j-th value, whatever the hash held before |
| UserCache.DecodeParsed | src/shared/services/redis/user.cache.ts:117-123 | a converted field other than createdAt and blocked holds `parseJson` of its text |
| UserCache.UserFieldsWriteUser | src/shared/services/redis/user.cache.ts:43-92 | the argument list carries the user's data, rendered as the save renders it, at the positions that are read back |
| UserCache.WrittenCounters | src/shared/services/redis/user.cache.ts:67-70 | followersCount and followingCount come back as the numbers they were |
| UserCache.WrittenComposites | src/shared/services/redis/user.cache.ts:63-74 | blockedBy, notifications and social come back as the JSON values they were written from |
| UserCache.DecodeBlocked | src/shared/services/redis/user.cache.ts:118 | blocked is read as `parseJson` of its text with ";" appended |
| UserCache.WrittenBlocked | src/shared/services/redis/user.cache.ts:61-62 | blocked does not come back: its JSON text followed by ";" is not JSON, so the text itself is returned |
| UserCache.DecodeFirstList | src/shared/services/redis/user.cache.ts:116 | createdAt is read through `new Date(parseJson(…))`; username and postCount are returned as their text |
| UserCache.WrittenFirstValues | src/shared/services/redis/user.cache.ts:43-58 | after a save the hash holds the call's date, the username and the `${postsCount}` text |
| UserCache.WrittenFirstList | src/shared/services/redis/user.cache.ts:20 | the creation date read back is the date of the save, not the document's; username and postCount are the text written |
| UserCache.DecodeSavedUser | src/shared/services/redis/user.cache.ts:15-130 | save then read: the counters, blockedBy, notifications and social round-trip; blocked comes back as text with ";"; createdAt is the save date; the text fields are as written |
| UserCache.NotWritten | src/shared/services/redis/user.cache.ts:101 | a field that is not one of the user's names, and was absent before, stays absent |
| UserCache.PostsCountNotWritten | src/shared/services/redis/user.cache.ts:56 | the count is stored under "postCount"; "postsCount" is not a stored name |
| UserCache.DecodeSavedPostsCount | src/shared/services/redis/user.cache.ts:56 | postsCount is never written, so unless the hash had it already, it reads back as the text "undefined" |
| UserCache.DecodeMissingField | src/shared/services/redis/user.cache.ts:117-123 | a converted field that the hash lacks decodes to the text "undefined", not to a zero or an error |
| LegacyUserCache.UserCache.constructor | src/shared/redis/user.cache.ts:10-12 | the cache uses the given client |
| LegacyUserCache.UserCache.SaveUserToCache | src/shared/redis/user.cache.ts:14-81 | the same 40-string layout and the same connect, ZADD, HSET steps as the services version, with the same success condition and effect on the keyspace; every failure is "Server errer, try again" |
| PostCache.PostFieldNamesDistinct | src/shared/services/redis/post.cache.ts:36-72 | the names under which a post is stored are sixteen distinct strings |
| PostCache.PostFieldsPairs | src/shared/services/redis/post.cache.ts:36-74 | `dataToSave` pairs the sixteen names with the sixteen values |
| PostCache.PostFieldsLayout | src/shared/services/redis/post.cache.ts:36-74 | `dataToSave` is 32 strings with the fixed names at the even positions: an even length, as HSET requires |
| PostCache.PostValuesAt | src/shared/services/redis/post.cache.ts:36-72 | the sixteen values position by position: ids and names as given, `${…}` of the body fields ("undefined" when missing), of the comment count and of the image fields |
| PostCache.ReactionsValueAt | src/shared/services/redis/post.cache.ts:68-69 | the reactions are written as their JSON text |
| PostCache.PostWrittenAt | src/shared/services/redis/post.cache.ts:93 | after writing the post's pairs, the j-th name holds the j-th value, whatever the hash held before |
| PostCache.ReactionsRoundTrip | src/shared/services/redis/post.cache.ts:69 | the reactions' JSON text parses back as the reactions |
| PostCache.WrittenReactions | src/shared/services/redis/post.cache.ts:68-69 | after the write, `posts:<key>` holds reactions text that `JSON.parse` reads back as the post's reactions |
| PostCache.WrittenField | src/shared/services/redis/post.cache.ts:74-93 | after the write, each of the sixteen names holds the post's value for it |
| PostCache.WrittenCount | src/shared/services/redis/post.cache.ts:62-63 | after the write, commentsCount holds `${commentsCount}` |
| PostCache.WrittenImage | src/shared/services/redis/post.cache.ts:64-67 | after the write, imgVersion and imgId hold the post's own values |
| PostCache.CounterOfCount | src/shared/services/redis/post.cache.ts:95 | a stored count n is read back as n, and the counter written is `${n + 1}` |
| PostCache.CounterOfNothing | src/shared/services/redis/post.cache.ts:95 | a missing field, "NaN" or "undefined" makes the new count "NaN" |
| PostCache.QueuedWrites | src/shared/services/redis/post.cache.ts:86-96 | the `multi` queues three commands |
| PostCache.ApplyThree | src/shared/services/redis/post.cache.ts:98 | EXEC of three commands runs the first, then the second, then the third, also when they were queued on the `multi` one at a time |
| PostCache.CounterPairs | src/shared/services/redis/post.cache.ts:96 | the counter's argument list writes just the postCount field |
| PostCache.KeysDiffer | src/shared/services/redis/post.cache.ts:93-96 | a post's hash key is never the author's hash key |
| PostCache.ZAddStep | src/shared/services/redis/post.cache.ts:88-91 | the ZADD ranks the post under the score, changes nothing when the score is NaN, and touches no hash |
| PostCache.HSetStep | src/shared/services/redis/post.cache.ts:93 | an HSET writes its pairs over one hash and touches no sorted set and no other hash; an odd list changes nothing |
| PostCache.CounterStep | src/shared/services/redis/post.cache.ts:95-96 | the counter's HSET sets postCount in the author's hash and nothing else |
| PostCache.QueuedSteps | src/shared/services/redis/post.cache.ts:86-98 | EXEC of the queued writes runs the three commands one after the other |
| PostCache.QueuedWritesEffect | src/shared/services/redis/post.cache.ts:86-98 | EXEC ranks the post in `post` (unless the score is NaN), writes the pairs over `posts:<key>`, sets the author's postCount, and changes nothing else |
| PostCache.QueuedCounter | src/shared/services/redis/post.cache.ts:95-98 | whatever the argument list, EXEC sets the author's postCount to the count and no other field of that hash |
| PostCache.PostCache.constructor | src/shared/services/redis/post.cache.ts:10-12 | the cache uses the given client |
| PostCache.PostCache.SavePostToCache | src/shared/services/redis/post.cache.ts:14-103 | open if closed, HMGET the author's postsCount, queue the three writes and EXEC them. Success is exactly when the connect and the HMGET succeed, and any failure is "Server error, try again". EXEC is not awaited, so the keyspace becomes SavedPostDb when EXEC succeeds and is unchanged otherwise, without affecting the result |
| PostCache.SaveKeepsPostsCount | src/shared/services/redis/post.cache.ts:81-96 | a save leaves the author's postsCount as it was: the count is read from postsCount but written to postCount |
| PostCache.CounterNeverAdvances | src/shared/services/redis/post.cache.ts:81-96 | a second post by the same author writes the same postCount as the first, leaving the author's hash as the first post left it |
| PostCache.CounterOverwrites | src/shared/services/redis/post.cache.ts:81-98 | the counter is read before the `multi` and written by it, so a write to the author's hash in between is lost |
| PostCache.ConcurrentSavesCountOnce | src/shared/services/redis/post.cache.ts:81-98 | two saves that both read the stored count n before either EXEC leave the counter at n + 1, not n + 2 |
| PostCache.MissingCountIsNaN | src/shared/services/redis/post.cache.ts:81-96 | an author whose hash has no postsCount gets postCount "NaN" |
| PostCache.MissingCountReadsNaN | src/shared/services/redis/post.cache.ts:81-96 | such an author, reading back after a post, gets the postCount text "NaN" |
| PostCache.NaNCountDecodes | src/shared/services/redis/user.cache.ts:113-125 | `getUserFromCache` does not convert postCount, so its text comes back as it is |
| PostCache.FirstPostAfterSignUp | src/shared/services/redis/post.cache.ts:81-96 | a user just saved at sign-up has no postsCount, so their first post sets postCount to "NaN", and reading the user back returns that text |
| SignUp.SignupData | src/features/auth/controllers/signup.ts:80-91 | the auth record: the name capitalised word by word, the email lower-cased (and so unchanged by a second lower-casing), and the id, uId, password and colour as given, created now |
| SignUp.UserData | src/features/auth/controllers/signup.ts:93-136 | the user record: the new user id, the auth id, the auth record's uId, email, password and colour, the name capitalised, and the fixed defaults (empty texts and lists, zero counters, every notification on) |
| SignUp.UserNameIsAuthName | src/features/auth/controllers/signup.ts:85-107 | the name is capitalised twice with no further effect: the user record carries the auth record's name |
| SignUp.ProfilePicture | src/features/auth/controllers/signup.ts:53 | the avatar address is the fixed Cloudinary base, then the version, a slash and the user id |
| SignUp.SignToken | src/features/auth/controllers/signup.ts:67-78 | the signed payload names the new user id as `userId`, plus the auth record's uId, email, name and colour |
| SignUp.GeneratedUId | src/features/auth/controllers/signup.ts:34 | the uId is the text of the twelve drawn digits' value, below 10^12, and `parseInt` reads it back as that value |
| SignUp.SignUp.constructor | src/features/auth/controllers/signup.ts:20 | the controller uses the given user cache |
| SignUp.SignUp.Create | src/features/auth/controllers/signup.ts:23-65 | a validation error ends as the decorator decides; an existing user and then a failed upload each end with their BadRequestError before anything is written, queued or signed; otherwise the outcome is SavedAndAnswered for the auth record and the cached user with the avatar address, including what a failed save leaves in the cache; the auth record's date (`now`, read in `signupData`) and the cache's save date (`savedAt`, read in `saveUserToCache` after the upload) are two separate clock reads |
| SignUp.SignUp.SaveAndAnswer | src/features/auth/controllers/signup.ts:54-64 | when the cache save succeeds, the user is saved under its id, the auth job and then the user job are queued, the session token becomes the signed payload, and the answer is 201 with the user and the token; when it fails, the server error is thrown, nothing is queued, the session is unchanged, and the cache is unchanged when the connection or the ZADD failed, or holds only the ZADD into `user` when the HSET failed; either way the connection is open exactly when it was or the server accepted it |
| SignUp.NewUserReadBack | src/features/auth/controllers/signup.ts:103-135 | a new user read back from the cache has zero follow counters, no one blocking them, every notification on and postCount "0", while blocked reads as the text "[];" |
| SignUp.NoIds | src/features/auth/controllers/signup.ts:112-113 | an empty id list is written as "[]", so with ";" appended it reads as "[];" |
| JoiValidation.Check | src/shared/globals/decorators/joi-validation.decorator.ts:19-27 | the original handler is called exactly when there is no error or the error has no details. Non-empty details go to `next` as a JoiRequestValidationError with the first detail's message. An empty details list is truthy, so reading its first message throws a TypeError |
| JoiValidation.PassesThrough | src/shared/globals/decorators/joi-validation.decorator.ts:23-26 | with nothing to report, the decorated handler ends exactly as the original does |
| JoiValidation.RejectsWithoutOriginal | src/shared/globals/decorators/joi-validation.decorator.ts:23-25 | with details to report, the ending does not depend on the original at all and is never a response |
| JoiValidation.FirstDetailOnly | src/shared/globals/decorators/joi-validation.decorator.ts:24 | only the first detail's message is used: lists that start alike end alike |
| Http.Request.constructor | src/features/auth/controllers/signup.ts:62 | a request carries the session token and the current user it is given |
| CreatePost.ImageFieldsIgnored | src/features/post/controllers/create-post.ts:18-55 | the body's imgVersion, imgId and image are read but never reach the cache: bodies differing only there flatten to the same argument list |
| CreatePost.CreatedPostValues | src/features/post/controllers/create-post.ts:30-55 | the post is flattened to the new id, the session user's id, name, email and colour, the body's six fields rendered with `${…}`, a comment count of "0", empty image fields and the time of the call |
| CreatePost.CreatedPostHash | src/features/post/controllers/create-post.ts:43-54 | in the post's hash the comment count reads "0", the image fields are empty, and the reactions parse back to six zero counters |
| CreatePost.Create.constructor | src/features/post/controllers/create-post.ts:9 | the controller uses the given post cache |
| CreatePost.Create.Post | src/features/post/controllers/create-post.ts:12-66 | a rejected body ends as the decorator decides; with no current user, reading `userId` throws a TypeError; both leave the cache untouched. Otherwise the post is saved once under its new id, for the user's id and uId, then the answer is 201 "Post created successfully"; a failed save rejects with the cache's error |
| AuthMiddleware.VerifyEnding | src/shared/globals/helpers/auth-middleware.ts:8-19 | `verifyUser` calls `next` exactly when the token is truthy and verifies; a missing or empty token throws "Token is not avalible…", and a token that does not verify throws "Token is invalid…" |
| AuthMiddleware.CheckEnding | src/shared/globals/helpers/auth-middleware.ts:21-26 | `checkAuth` calls `next` exactly when the token is truthy, and otherwise throws "not autorize for this route" |
| AuthMiddleware.CheckWeakerThanVerify | src/shared/globals/helpers/auth-middleware.ts:8-26 | whatever `verifyUser` lets through `checkAuth` lets through; on a missing token both throw a NotAutorizedError, with different messages |
| AuthMiddleware.VerifyUser | src/shared/globals/helpers/auth-middleware.ts:8-19 | the ending is VerifyEnding; on `next` the current user is the verified payload, and on a throw it is unchanged; the token is never changed |
| AuthMiddleware.CheckAuth | src/shared/globals/helpers/auth-middleware.ts:21-26 | the ending is CheckEnding, and the request is not changed |
| CurrentUser.Answer | src/features/auth/controllers/currents-user.ts:9-21 | the user is the cached one if any, else the database's; with neither, `Object.keys(null)` throws. `isUser` holds exactly when that user has a key; then the reply carries the session token and the user, and otherwise null for both; the status is 200 |
| CurrentUser.CacheShortCircuits | src/features/auth/controllers/currents-user.ts:13-14 | a cache hit decides the answer whatever the database holds, and the answer is a response |
| CurrentUser.NoUserLooksUpUndefined | src/features/auth/controllers/currents-user.ts:13-14 | with no user on the request both lookups use the key "undefined" |
| CurrentUser.CurrentUser.Read | src/features/auth/controllers/currents-user.ts:9-21 | the ending is Answer for the request's token and user, and the database is asked exactly on a cache miss |
| SignIn.Payload | src/features/auth/controllers/sighin.ts:27-36 | the signed payload names the auth record's own id as `userId`, plus its uId, email, name and colour |
| SignIn.SessionsNameDifferentIds | src/features/auth/controllers/sighin.ts:29 | sign-in and sign-up sessions for the same auth record name the same `userId` exactly when the auth id equals the user id, and agree on every other field |
| SignIn.SignIn.Read | src/features/auth/controllers/sighin.ts:13-40 | a rejected body ends as the decorator decides. An unknown name and a wrong password both end with the same BadRequestError "Invalid credentials" and the session unchanged. Otherwise the session becomes the signed token and the answer is 200 with the record and that token |
| AppConfig.FirstUnset | src/config.ts:29-35 | the index of the first unset entry, if there is one: it is None exactly when every entry is set; otherwise it points at an unset entry with every earlier one set |
| AppConfig.EnvEntries | src/config.ts:15-23 | the seven settings read from the environment, in declaration order, each with the same-named entry or undefined |
| AppConfig.ValidationOfEnvironment | src/config.ts:15-35 | a configuration read from an environment passes exactly when all seven names are in it; otherwise the error names the first missing one in declaration order |
| AppConfig.Config.constructor | src/config.ts:15-23 | each setting is the same-named environment entry |
| AppConfig.Config.Entries | src/config.ts:30 | `Object.entries(this)` lists the seven settings under their names, in declaration order |
| AppConfig.Config.ValidateConfig | src/config.ts:29-35 | the loop throws "Configuration <key> is underfined." for the first unset setting and returns normally when every one is set; it changes nothing |
| PostWorker.Trace | src/shared/workers/post.worker.ts:9-19 | every run starts with the database write of the job's key and value and ends with a `done` call |
| PostWorker.TraceProtocol | src/shared/workers/post.worker.ts:9-19 | every run writes once and calls `done` exactly once, as its last step. Progress 100 is reported exactly when the write succeeds. `done` gets null and the post on success, and the error with no result on failure |
| PostWorker.Job.constructor | src/shared/workers/post.worker.ts:11 | a job carries its key and value, with no progress and nothing done yet |
| PostWorker.PostWorker.AddPostToDb | src/shared/workers/post.worker.ts:9-19 | one run appends exactly Trace to the job's events; the progress is 100 after a successful write and unchanged after a failed one |
| Password.Hex | src/features/auth/controllers/password.ts:33-34 | `toString('hex')` writes two lower-case hex digits per byte |
| Password.DigitValue | src/features/auth/controllers/password.ts:34 | a hex digit's value is below 16 and names that digit |
| Password.DigitValueOf | src/features/auth/controllers/password.ts:34 | the digit for a value below 16 reads back as that value |
| Password.ByteDigits | src/features/auth/controllers/password.ts:34 | a byte's two digits read back as the byte |
| Password.HexRoundTrip | src/features/auth/controllers/password.ts:33-34 | the hex token read back two digits at a time gives the random bytes |
| Password.HexInjective | src/features/auth/controllers/password.ts:33-34 | different random bytes never give the same token |
| Password.ExpiryIsNotAnHourAhead | src/features/auth/controllers/password.ts:39 | `Date.now() * 60 * 60 * 1000` multiplies the clock by an hour's milliseconds: it is never the clock plus one hour, and from the second millisecond on it lies past it |
| Password.ResetLinkParts | src/features/auth/controllers/password.ts:42 | the link is the client address, the reset path, then the token; an unset client address reads "undefined" |
| Password.Password.Create | src/features/auth/controllers/password.ts:18-53 | a rejected body ends as the decorator decides. An unknown address goes to `next` with "Invalid credentials", and then no token is written and no e-mail queued. Otherwise the 40-digit hex of the 20 bytes is written as the record's token with the expiry, one reset e-mail job carrying the link goes to the request's address, and the answer is 200 |
| Password.Password.Update | src/features/auth/controllers/password.ts:55-93 | a rejected body ends as the decorator decides; no record for the token goes to `next` with "Reset token has expired."; on both of these paths nothing is queued and a record passed in keeps both its current and its saved fields. Otherwise the password is set and both reset fields are cleared, those fields are saved, one confirmation e-mail goes to the record's address, and the answer is 200 |
| Password.ResetUsesTokenUp | src/features/auth/controllers/password.ts:71-74 | after a reset no token matches the record, so the same link cannot reset it twice; resetting again changes only the password |
| Password.AuthDocument.constructor | src/features/auth/controllers/password.ts:63-65 | the document found holds the stored fields |
| Password.AuthDocument.Save | src/features/auth/controllers/password.ts:74 | `save()` writes the document's fields to the database |

## Left out

- I/O and logging: the bunyan loggers (`creatLogger` and every `log.error`), `dotenv`, the Express response object beyond status and body, and the HTTP routes wiring the handlers (`routes.ts`, the route files).
- `error-handler.ts` is not part of this model. Its error classes appear only by name and message (`Http.ErrorClass`), and the status codes they carry are not modelled.
- Concurrency: the handlers are `async`. Interleavings appear only where the core's behaviour depends on them, as explicit sequences of pure steps (`PostCache.CounterOverwrites`, `PostCache.ConcurrentSavesCountOnce`).
- The MongoDB services (`authService`, `userService`, `postService`), Cloudinary, `JWT.sign`/`JWT.verify` and the e-mail template renderers are called through function parameters. What they compute is not modelled, and `SignUp.SignUp.Create` takes the existence check of `getUserByUsernameOrEmail` as a boolean.
- The Bull queues (`base.queue.ts` and the queue classes): a job is returned as its queue, name and data; the queue's processing and retry settings are left out.
- `PostWorker.PostWorker.AddPostToDb`: the database write is represented by its outcome (`None` or the rejection's message); the post service itself is not modelled.
- Dates: `new Date()` and `moment().format(…)` are passed in as text; `new Date(…)` on read-back is kept as its argument (`UserCache.DateArg`).
- Password.ExpiryIsNotAnHourAhead: JavaScript numbers are doubles; the expiry is modelled in exact integers, which agrees with the double result only while the product stays below 2^53.
- JsText.NatToString, JsText.ParseIntOfIntToString, JsText.ParseIntOfSpacedDigits, Helpers.GenerateRandomIntegers, Helpers.GeneratedNumeralLength: numbers are exact integers. JavaScript agrees only below 2^53, where doubles are exact, and below 10^21, from where `${n}` uses exponent form ("1e+21"). Past those bounds `parseInt` rounds, e.g. seventeen 9s read as 10^17. The core draws twelve digits, well inside both bounds.
- Json.WellFormed, JsonLaws.RoundTrip: an object's members keep their written order. JavaScript lists integer-like keys (such as "1") first, so `JSON.parse` reorders members whose keys look like integers. The keys the caches store are fixed names, none of them integer-like.
- JSON numbers are integers only; fractions, exponents and `\u` escapes of surrogate code units are rejected by the parser model. Case mapping covers ASCII letters only, and other characters are unchanged.
- `CurrentUser`: the controller calls `getUserFromCache` on the older cache class, which defines no such method. Both the cache and the database lookups are parameters, and a `null` and an `undefined` session token are both `None`.
- The Joi schemas themselves (`signupSchema`, `loginSchema`, `emailSchema`, `passwordSchema`, `postSchema`): the decorator's input is what `validate` answers. The decorator's rewriting of `descriptor.value` is modelled as the function `JoiValidation.Decorated` around the handler's ending.
- `Password.Password.Update`: the reset token from the URL is not a parameter, because only the record that `getAuthUserByPwdToken` finds for it matters; `save()` is assumed to succeed.
- `Password.Password.Create`: the token write `updatePwdToken` is returned as a value (`TokenUpdate`) rather than performed, and it is assumed to succeed.
- ObjectIds are their hexadecimal text; their generation is a parameter.
- `setupServer.ts`, `setupDb.ts`, `app.ts`, the socket layer and the mail transport are not part of this model.
