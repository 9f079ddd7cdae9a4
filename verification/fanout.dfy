/** The two fan-outs over a user's friends: the push tokens gathered from the
    friends' documents, and one in-app notification record per friend. */
module FanOut {

  import opened Wrappers
  import opened JsValues

  /** A user document as read from the `users` collection. A field the
      document does not have reads as `Undefined`. */
  datatype UserDoc = UserDoc(isStudying: JsValue, name: JsValue, friends: JsValue, fcmToken: JsValue)

  /** The tag carried by every push payload and every in-app record. */
  const FriendStudyStart: string := "friend_study_start"

  /** An in-app notification written under `notifications/{owner}/items`.
      The server timestamp and the generated document id are not modelled. */
  datatype InAppRecord = InAppRecord(owner: JsValue, title: string, body: string, kind: string, friendUid: string)

  /** The token candidate of one looked-up friend: the document's `fcmToken`
      when the document exists, `null` otherwise. */
  function TokenField(d: Option<UserDoc>): (v: JsValue)
    ensures d.None? ==> v == Null
    ensures d.Some? ==> v == d.value.fcmToken
  {
    match d
    case Some(doc) => doc.fcmToken
    case None => Null
  }

  /** The friend document yields a token the handler will send to. */
  predicate HasValidToken(d: Option<UserDoc>)
    ensures HasValidToken(d) <==> d.Some? && d.value.fcmToken.Str? && d.value.fcmToken.s != ""
  {
    IsNonEmptyString(TokenField(d))
  }

  /** The tokens kept by mapping each friend document to its token candidate
      and filtering for non-empty strings, in friend order. */
  function ValidTokens(docs: seq<Option<UserDoc>>): (r: seq<string>)
    ensures |r| <= |docs|
    ensures forall k :: 0 <= k < |r| ==> |r[k]| > 0
    ensures forall k :: 0 <= k < |r| ==> exists i :: 0 <= i < |docs| && TokenField(docs[i]) == Str(r[k])
    decreases |docs|
  {
    if |docs| == 0 then []
    else
      var last := docs[|docs| - 1];
      var prefix := ValidTokens(docs[..|docs| - 1]);
      assert forall i :: 0 <= i < |docs| - 1 ==> docs[..|docs| - 1][i] == docs[i];
      if HasValidToken(last) then prefix + [TokenField(last).s] else prefix
  }

  /** The positions of the friend documents that carry a valid token,
      in increasing order: an independent description of which friends the
      push reaches. */
  function ValidIndices(docs: seq<Option<UserDoc>>): (idx: seq<nat>)
    ensures forall k :: 0 <= k < |idx| ==> idx[k] < |docs| && HasValidToken(docs[idx[k]])
    ensures forall k, l :: 0 <= k < l < |idx| ==> idx[k] < idx[l]
    ensures forall i :: 0 <= i < |docs| && HasValidToken(docs[i]) ==> i in idx
    decreases |docs|
  {
    if |docs| == 0 then []
    else
      var n := |docs| - 1;
      var prefix := ValidIndices(docs[..n]);
      assert forall i :: 0 <= i < n ==> docs[..n][i] == docs[i];
      if HasValidToken(docs[n]) then prefix + [n] else prefix
  }

  /** The token list is the subsequence of token candidates picked out by
      `ValidIndices`: one token per valid friend document, in friend order. */
  lemma {:induction false} ValidTokensAreSelected(docs: seq<Option<UserDoc>>)
    ensures |ValidTokens(docs)| == |ValidIndices(docs)|
    ensures forall k :: 0 <= k < |ValidTokens(docs)| ==>
      Str(ValidTokens(docs)[k]) == TokenField(docs[ValidIndices(docs)[k]])
    decreases |docs|
  {
    if |docs| > 0 {
      var n := |docs| - 1;
      var prefix := docs[..n];
      ValidTokensAreSelected(prefix);
      var tokens, idx := ValidTokens(docs), ValidIndices(docs);
      var prefixTokens, prefixIdx := ValidTokens(prefix), ValidIndices(prefix);
      forall k | 0 <= k < |tokens|
        ensures Str(tokens[k]) == TokenField(docs[idx[k]])
      {
        if k < |prefixTokens| {
          assert tokens[k] == prefixTokens[k] && idx[k] == prefixIdx[k];
          assert prefix[prefixIdx[k]] == docs[idx[k]];
        } else {
          assert tokens[k] == TokenField(docs[n]).s && idx[k] == n;
        }
      }
    }
  }

  /** Every friend document with a valid token contributes its token. */
  lemma {:induction false} ValidTokenIsKept(docs: seq<Option<UserDoc>>, i: nat)
    requires i < |docs| && HasValidToken(docs[i])
    ensures TokenField(docs[i]).s in ValidTokens(docs)
  {
    ValidTokensAreSelected(docs);
    var idx := ValidIndices(docs);
    var k :| 0 <= k < |idx| && idx[k] == i;
    assert ValidTokens(docs)[k] == TokenField(docs[i]).s;
  }

  /** No token is sent exactly when no friend document carries a valid token. */
  lemma {:induction false} NoTokensIff(docs: seq<Option<UserDoc>>)
    ensures ValidTokens(docs) == [] <==> forall i :: 0 <= i < |docs| ==> !HasValidToken(docs[i])
  {
    if ValidTokens(docs) == [] {
      forall i | 0 <= i < |docs| && HasValidToken(docs[i])
        ensures false
      {
        ValidTokenIsKept(docs, i);
      }
    } else {
      ValidTokensAreSelected(docs);
      assert HasValidToken(docs[ValidIndices(docs)[0]]);
    }
  }

  /** The records written by the `forEach` over the friends: one per friend,
      in friend order. */
  function Records(friends: seq<JsValue>, title: string, uid: string): (r: seq<InAppRecord>)
    ensures |r| == |friends|
    ensures forall i :: 0 <= i < |r| ==>
      r[i].owner == friends[i] && r[i].title == title && r[i].body == ""
      && r[i].kind == FriendStudyStart && r[i].friendUid == uid
    decreases |friends|
  {
    if |friends| == 0 then []
    else
      var n := |friends| - 1;
      assert forall i :: 0 <= i < n ==> friends[..n][i] == friends[i];
      Records(friends[..n], title, uid) + [InAppRecord(friends[n], title, "", FriendStudyStart, uid)]
  }

}
