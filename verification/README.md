# StudyBuddy: notify friends when a user starts studying

A Dafny model of the decision logic of the Cloud Function
`notifyFriendsOnStudyStart`. The function runs on every update of a document
`users/{uid}`. When the user's `isStudying` flips from falsy to truthy, it
does three things:

- it looks up each friend's document;
- it sends one multicast push to the friends' non-empty `fcmToken`s, titled
  `"<name> is gestart met studeren!"`;
- it writes one in-app notification record under `notifications/{friend}/items`
  for every friend.

It returns `{sent, failed}` from the multicast response, or `null` on every
early exit.

The model is pure. The Firestore reads and the multicast send become inputs:

- the friend documents, one per friend in friend order;
- a function `deliver` that stands for the push collaborator.

The batched write becomes the `writes` field of the `Invocation` that
`Notifier.Handle` returns.

Modules:

- `Wrappers` (`wrappers.dfy`): `Option`, used for absent snapshots, missing
  friend documents and the `null` return.
- `JsValues` (`js_values.dfy`): the loosely typed field values (`JsValue`)
  and two JavaScript coercions. `Truthy` models `!!`, and `Or` models `||`.
  `ToString` models the text a template literal `${...}` produces.
- `FanOut` (`fanout.dfy`): the user document (`UserDoc`) and the token filter
  (`ValidTokens`). `ValidIndices` is an independent description of which
  friends the push reaches. `Records` is the per-friend record fan-out.
- `Notifier` (`notifier.dfy`): the handler's decision `Plan`, the returned
  `Summarize`, and one whole invocation `Handle`. `Handle`'s observable
  effects are the sends issued, the records written and the value returned.
  This module also holds the no-op lemmas and two worked examples.

Two consequences of the code as written:

- No in-app record is written when no friend has a valid token. The handler
  returns `null` at `index.js:33`, before the batch. `Notifier.NoValidTokenIsNoOp`
  states this.
- The name fallback `after.name || 'Je vriend'` uses JavaScript truthiness. So
  a name of `0` or `false` falls back to "Je vriend", and a name of `true`
  gives the title "true is gestart met studeren!".

## Model

| member | source | states |
|---|---|---|
| JsValues.Or | studybuddy_app_template/functions/index.js:20 | the `or` operator of the name fallback returns a truthy left operand unchanged and otherwise the right operand; the result is truthy iff either operand is |
| JsValues.IntToString | studybuddy_app_template/functions/index.js:37 | a number interpolated into the title becomes a non-empty decimal string with a leading `-` exactly for negative numbers and no leading zero; its digits read back to the number's magnitude |
| JsValues.NatToStringRoundTrip | studybuddy_app_template/functions/index.js:37 | the decimal digits produced for a number read back to that number |
| JsValues.Truthy | studybuddy_app_template/functions/index.js:13-20 | a value is falsy exactly when it is one of `undefined`, `null`, `false`, `0`, `NaN` and the empty string |
| JsValues.ToString | studybuddy_app_template/functions/index.js:37 | a string interpolates as itself, a number as its decimal text, an empty array as the empty string, and a one-element array as that element's text |
| JsValues.JoinWithComma | studybuddy_app_template/functions/index.js:37 | the joined text of an array's element texts is empty for no parts, is the part itself for one part, and starts with the first part and ends with the last |
| JsValues.JoinThenSplit | studybuddy_app_template/functions/index.js:37 | for a non-empty list of parts, splitting the joined text on commas gives back the parts, when no part holds a comma |
| JsValues.ArrayTextSplits | studybuddy_app_template/functions/index.js:37 | for a non-empty array, its title text splits on commas into its element texts, one per element and in order, when none of them holds a comma (an empty array's text is the empty string, which splits into one empty piece) |
| Notifier.DisplayName | studybuddy_app_template/functions/index.js:20 | the name in the title is the string conversion of `after.name` when it is truthy, and exactly "Je vriend" when it is falsy; a non-empty string name is used verbatim |
| FanOut.TokenField | studybuddy_app_template/functions/index.js:30 | a missing friend document yields `null`; an existing one yields its `fcmToken` field |
| FanOut.HasValidToken | studybuddy_app_template/functions/index.js:30-31 | a friend document passes the filter exactly when it exists and its `fcmToken` is a non-empty string |
| FanOut.ValidTokens | studybuddy_app_template/functions/index.js:29-31 | the kept tokens are never more than the friend documents; every kept token is a non-empty string; each one is the `fcmToken` of some friend document |
| FanOut.ValidIndices | studybuddy_app_template/functions/index.js:29-31 | positions of friend documents with a valid token: strictly increasing, each one a document that exists with a non-empty string `fcmToken`, and no such document missing |
| FanOut.ValidTokensAreSelected | studybuddy_app_template/functions/index.js:29-31 | the token list is the ordered subsequence of `fcmToken`s at exactly the valid positions: the k-th token is the token of the k-th valid friend document |
| FanOut.ValidTokenIsKept | studybuddy_app_template/functions/index.js:29-31 | every friend document that exists with a non-empty string token contributes that token |
| FanOut.NoTokensIff | studybuddy_app_template/functions/index.js:29-33 | the token list is empty iff no friend document exists with a non-empty string `fcmToken` |
| FanOut.Records | studybuddy_app_template/functions/index.js:56-65 | exactly one record per friend, in friend order, each owned by that friend, with the given title, empty body, type `friend_study_start` and the subject's uid |
| Notifier.Plan | studybuddy_app_template/functions/index.js:12-65 | a plan exists iff both snapshots exist, `isStudying` rises from falsy to truthy, `friends` is a non-empty array and some friend document has a valid token; the plan's tokens, title, body, data payload and one record per friend (sharing the push title) |
| Notifier.Summarize | studybuddy_app_template/functions/index.js:69-72 | the returned summary reports the response's success count as `sent` and its failure count as `failed` |
| Notifier.Handle | studybuddy_app_template/functions/index.js:47-72 | an invocation issues at most one multicast; with no send it writes nothing and returns `null`; with a send it returns that send's response counts, and every record's title equals the push title |
| Notifier.MissingSnapshotIsNoOp | studybuddy_app_template/functions/index.js:12 | an absent before or after snapshot sends nothing, writes nothing and returns `null` |
| Notifier.OnlyRisingEdgeActs | studybuddy_app_template/functions/index.js:13-17 | true→true, true→false and false→false transitions of `!!isStudying` send nothing, write nothing and return `null` |
| Notifier.NoFriendsIsNoOp | studybuddy_app_template/functions/index.js:21-22 | a `friends` value that is not an array, or an empty array, sends nothing, writes nothing and returns `null` |
| Notifier.NoValidTokenIsNoOp | studybuddy_app_template/functions/index.js:33 | when no friend document has a non-empty string token, nothing is sent and no in-app record is written, even for friends whose documents exist |
| Notifier.ActingInvocation | studybuddy_app_template/functions/index.js:29-65 | on a rising edge with a valid token: one multicast whose tokens are exactly the valid friends' tokens in friend order, at most one per friend; one record per friend in friend order, tokens or not; the push and the records are exactly those of `Plan`, so its title, body, data payload and record fields carry over |
| Notifier.TwoFriendsStartStudying | studybuddy_app_template/functions/index.js:20-65 | for any name, a user with friend F1 (token "tokA") and friend F2 (no token) starting to study sends one push to ["tokA"] and writes records for F1 and F2, all with the same display-name title |
| Notifier.NamedUserExample | studybuddy_app_template/functions/index.js:20-65 | "Anna" with friend F1 (token "tokA") and friend F2 (no token): one push to ["tokA"] titled "Anna is gestart met studeren!", and records for F1 and F2 |
| Notifier.UnnamedUserExample | studybuddy_app_template/functions/index.js:20-65 | the same two-friend invocation with any falsy name (absent, empty, `null`, `0`, `false`, `NaN`): the same push and the same two records, only the title becomes "Je vriend is gestart met studeren!" |

## Left out

- `admin.initializeApp()` and the trigger registration on `users/{uid}`
  (index.js:1-8) are deployment wiring. The subject `uid` is a parameter.
- The Firestore reads are inputs: `friendDocs` holds one optional document per
  friend, in friend order. The `Promise.all` over them (index.js:25-27) is
  concurrency with no other observable effect, so it is not modelled. The
  precondition `LookupsMatch` states that there is one document per friend.
- A rejected lookup, send or batch commit is not modelled. That includes a
  `doc(fid)` call that throws because a friend entry is not a valid document
  id. These failures propagate to the platform and are not logic of this
  handler.
- `sendEachForMulticast` is the function parameter `deliver`. Only its two
  aggregate counts are modelled.
- The batch write is the sequence `writes`. The atomicity of its commit is a
  platform guarantee and is not modelled.
- `serverTimestamp()` for `createdAt` and the auto-generated record ids
  (index.js:54, 57) are platform-assigned and opaque. Records carry neither.
- JsValues.IntToString: numbers are integral, and the text is exact only for
  magnitudes up to 2^53. Above 2^53 a double holds only some integers, and
  JavaScript writes the shortest digits that round-trip, padded with zeros
  (2^64 prints as 18446744073709552000); from 10^21 on it uses exponent
  notation. The model writes every digit of the integer instead. Non-integral
  doubles are not modelled. `-0` coincides with `0`.
- Objects (maps, timestamps, references) appear only through their
  string-conversion text (`Obj(repr)`). The model does not compute that text.
