/** The decision logic of the `notifyFriendsOnStudyStart` change handler: when
    a user's `isStudying` flips from falsy to truthy, push one multicast to the
    friends that have a device token and write one in-app record per friend.

    The Firestore reads, the multicast send and the batched write are not
    performed here. The friends' documents are a parameter (`friendDocs`, in
    friend order, as the parallel lookup yields them), and the push-delivery
    collaborator is the function `deliver`. */
module Notifier {

  import opened Wrappers
  import opened JsValues
  import opened FanOut

  const FallbackName: string := "Je vriend"
  const TitleSuffix: string := " is gestart met studeren!"
  const PushBody: string := "Tik om te kijken wie er nu studeert."

  datatype Notification = Notification(title: string, body: string)

  /** The argument of the multicast send: the tokens, the visible
      notification and the string-valued data payload. */
  datatype Multicast = Multicast(tokens: seq<string>, notification: Notification, data: map<string, string>)

  /** What the handler does on a rising edge that reaches the send. */
  datatype NotifyPlan = NotifyPlan(push: Multicast, records: seq<InAppRecord>)

  /** The aggregate counts the push-delivery collaborator reports. */
  datatype MulticastResponse = MulticastResponse(successCount: nat, failureCount: nat)

  /** The object the handler returns to the platform. */
  datatype Summary = Summary(sent: nat, failed: nat)

  /** The observable effects of one invocation: the multicast sends issued,
      the records committed, and the returned value (`None` for `null`). */
  datatype Invocation = Invocation(sends: seq<Multicast>, writes: seq<InAppRecord>, returned: Option<Summary>)

  const NoOp: Invocation := Invocation([], [], None)

  /** The user was not studying before the update and is studying after it,
      each side read by truthiness. */
  predicate RisingEdge(before: UserDoc, after: UserDoc) {
    !Truthy(before.isStudying) && Truthy(after.isStudying)
  }

  /** The friends list: `after.friends` when it is an array, empty otherwise. */
  function FriendList(after: UserDoc): seq<JsValue> {
    if after.friends.Arr? then after.friends.elems else []
  }

  /** The text `after.name || 'Je vriend'` contributes to the title. */
  function DisplayName(after: UserDoc): (r: string)
    ensures Truthy(after.name) ==> r == ToString(after.name)
    ensures !Truthy(after.name) ==> r == FallbackName
    ensures after.name.Str? && after.name.s != "" ==> r == after.name.s
  {
    ToString(Or(after.name, Str(FallbackName)))
  }

  function Title(after: UserDoc): string {
    DisplayName(after) + TitleSuffix
  }

  /** The friend lookups were issued for exactly the friends the handler
      reads: one document per entry of the friend list. */
  predicate LookupsMatch(after: Option<UserDoc>, friendDocs: seq<Option<UserDoc>>) {
    after.Some? ==> |friendDocs| == |FriendList(after.value)|
  }

  /** The handler's decision, `None` for every early `return null`. */
  function Plan(before: Option<UserDoc>, after: Option<UserDoc>, uid: string,
                friendDocs: seq<Option<UserDoc>>): (r: Option<NotifyPlan>)
    requires LookupsMatch(after, friendDocs)
    ensures r.Some? <==>
      && before.Some? && after.Some?
      && !Truthy(before.value.isStudying) && Truthy(after.value.isStudying)
      && after.value.friends.Arr? && |after.value.friends.elems| > 0
      && exists i :: 0 <= i < |friendDocs| && HasValidToken(friendDocs[i])
    ensures r.Some? ==>
      var p := r.value;
      && p.push.tokens == ValidTokens(friendDocs)
      && p.push.notification == Notification(DisplayName(after.value) + TitleSuffix, PushBody)
      && p.push.data == map["type" := FriendStudyStart, "friendUid" := uid]
      && |p.records| == |after.value.friends.elems|
      && forall i :: 0 <= i < |p.records| ==>
        p.records[i] == InAppRecord(after.value.friends.elems[i], p.push.notification.title, "", FriendStudyStart, uid)
  {
    if before.None? || after.None? then None
    else if !RisingEdge(before.value, after.value) then None
    else
      var friends := FriendList(after.value);
      if |friends| == 0 then None
      else
        var tokens := ValidTokens(friendDocs);
        NoTokensIff(friendDocs);
        if |tokens| == 0 then None
        else
          var title := Title(after.value);
          var push := Multicast(tokens, Notification(title, PushBody),
                                map["type" := FriendStudyStart, "friendUid" := uid]);
          Some(NotifyPlan(push, Records(friends, title, uid)))
  }

  /** The value returned to the platform: the delivery counts of the
      multicast response. */
  function Summarize(resp: MulticastResponse): (r: Summary)
    ensures r.sent == resp.successCount && r.failed == resp.failureCount
  {
    Summary(resp.successCount, resp.failureCount)
  }

  /** One invocation of the handler, with `deliver` standing for the
      multicast send. The send happens before the batch of records. */
  function Handle(before: Option<UserDoc>, after: Option<UserDoc>, uid: string,
                  friendDocs: seq<Option<UserDoc>>, deliver: Multicast -> MulticastResponse): (r: Invocation)
    requires LookupsMatch(after, friendDocs)
    ensures |r.sends| <= 1
    ensures r.sends == [] <==> r == NoOp
    ensures r.sends != [] ==>
      && r.returned == Some(Summary(deliver(r.sends[0]).successCount, deliver(r.sends[0]).failureCount))
      && (forall k :: 0 <= k < |r.writes| ==> r.writes[k].title == r.sends[0].notification.title)
  {
    match Plan(before, after, uid, friendDocs)
    case None => NoOp
    case Some(p) => Invocation([p.push], p.records, Some(Summarize(deliver(p.push))))
  }

  /** A missing snapshot sends nothing, writes nothing and returns `null`. */
  lemma MissingSnapshotIsNoOp(before: Option<UserDoc>, after: Option<UserDoc>, uid: string,
                              friendDocs: seq<Option<UserDoc>>, deliver: Multicast -> MulticastResponse)
    requires LookupsMatch(after, friendDocs)
    requires before.None? || after.None?
    ensures Handle(before, after, uid, friendDocs, deliver) == NoOp
  {
  }

  /** Only a falsy-to-truthy change of `isStudying` acts: staying truthy,
      becoming falsy and staying falsy are all no-ops. */
  lemma OnlyRisingEdgeActs(before: UserDoc, after: UserDoc, uid: string,
                           friendDocs: seq<Option<UserDoc>>, deliver: Multicast -> MulticastResponse)
    requires LookupsMatch(Some(after), friendDocs)
    requires Truthy(before.isStudying) || !Truthy(after.isStudying)
    ensures Handle(Some(before), Some(after), uid, friendDocs, deliver) == NoOp
  {
  }

  /** A `friends` value that is not an array, or an empty array, is a no-op. */
  lemma NoFriendsIsNoOp(before: UserDoc, after: UserDoc, uid: string,
                        friendDocs: seq<Option<UserDoc>>, deliver: Multicast -> MulticastResponse)
    requires LookupsMatch(Some(after), friendDocs)
    requires !after.friends.Arr? || after.friends.elems == []
    ensures Handle(Some(before), Some(after), uid, friendDocs, deliver) == NoOp
  {
  }

  /** When no friend document carries a non-empty string token the handler
      returns before the batch: no push, and no in-app record either, even
      for friends whose documents exist. */
  lemma NoValidTokenIsNoOp(before: UserDoc, after: UserDoc, uid: string,
                           friendDocs: seq<Option<UserDoc>>, deliver: Multicast -> MulticastResponse)
    requires LookupsMatch(Some(after), friendDocs)
    requires forall i :: 0 <= i < |friendDocs| ==> !HasValidToken(friendDocs[i])
    ensures Handle(Some(before), Some(after), uid, friendDocs, deliver) == NoOp
  {
    NoTokensIff(friendDocs);
  }

  /** On an acting invocation every friend gets exactly one record, in friend
      order, whether or not that friend has a token, while the push reaches
      exactly the friends with a valid token, in friend order. */
  lemma ActingInvocation(before: UserDoc, after: UserDoc, uid: string,
                         friendDocs: seq<Option<UserDoc>>, deliver: Multicast -> MulticastResponse)
    requires LookupsMatch(Some(after), friendDocs)
    requires RisingEdge(before, after)
    requires after.friends.Arr?
    requires exists i :: 0 <= i < |friendDocs| && HasValidToken(friendDocs[i])
    ensures var r := Handle(Some(before), Some(after), uid, friendDocs, deliver);
      var idx := ValidIndices(friendDocs);
      && |r.sends| == 1
      && |r.sends[0].tokens| == |idx| <= |after.friends.elems|
      && (forall k :: 0 <= k < |idx| ==> Str(r.sends[0].tokens[k]) == TokenField(friendDocs[idx[k]]))
      && (forall i :: 0 <= i < |friendDocs| && HasValidToken(friendDocs[i]) ==>
            TokenField(friendDocs[i]).s in r.sends[0].tokens)
      && |r.writes| == |after.friends.elems|
      && (forall i :: 0 <= i < |r.writes| ==> r.writes[i].owner == after.friends.elems[i])
      && r.sends[0] == Plan(Some(before), Some(after), uid, friendDocs).value.push
      && r.writes == Plan(Some(before), Some(after), uid, friendDocs).value.records
  {
    var p := Plan(Some(before), Some(after), uid, friendDocs);
    assert p.Some?;
    var r := Handle(Some(before), Some(after), uid, friendDocs, deliver);
    assert r.sends == [p.value.push] && r.writes == p.value.records;
    var tokens := ValidTokens(friendDocs);
    assert r.sends[0].tokens == tokens;
    ValidTokensAreSelected(friendDocs);
    forall i | 0 <= i < |friendDocs| && HasValidToken(friendDocs[i])
      ensures TokenField(friendDocs[i]).s in tokens
    {
      ValidTokenIsKept(friendDocs, i);
    }
  }

  /** The invocation both examples below share: a user with friends F1
      (token "tokA") and F2 (a document without a token) starts studying. */
  lemma TwoFriendsStartStudying(name: JsValue, deliver: Multicast -> MulticastResponse)
    ensures var before := UserDoc(Bool(false), name, Arr([Str("F1"), Str("F2")]), Undefined);
      var after := UserDoc(Bool(true), name, Arr([Str("F1"), Str("F2")]), Undefined);
      var docs := [Some(UserDoc(Undefined, Undefined, Undefined, Str("tokA"))),
                   Some(UserDoc(Undefined, Undefined, Undefined, Undefined))];
      var title := DisplayName(after) + TitleSuffix;
      Handle(Some(before), Some(after), "U", docs, deliver).sends
        == [Multicast(["tokA"], Notification(title, PushBody), map["type" := FriendStudyStart, "friendUid" := "U"])]
      && Handle(Some(before), Some(after), "U", docs, deliver).writes
        == [InAppRecord(Str("F1"), title, "", FriendStudyStart, "U"),
            InAppRecord(Str("F2"), title, "", FriendStudyStart, "U")]
  {
    var after := UserDoc(Bool(true), name, Arr([Str("F1"), Str("F2")]), Undefined);
    var docs := [Some(UserDoc(Undefined, Undefined, Undefined, Str("tokA"))),
                 Some(UserDoc(Undefined, Undefined, Undefined, Undefined))];
    assert docs[..1][..0] == [];
    assert ValidTokens(docs[..1]) == ["tokA"];
    assert ValidTokens(docs) == ["tokA"];
    assert HasValidToken(docs[0]);
    var title := DisplayName(after) + TitleSuffix;
    var recs := Records([Str("F1"), Str("F2")], title, "U");
    assert recs == [InAppRecord(Str("F1"), title, "", FriendStudyStart, "U"),
                    InAppRecord(Str("F2"), title, "", FriendStudyStart, "U")];
  }

  /** A user named "Anna" with friends F1 (token "tokA") and F2 (a document
      without a token) starts studying: one multicast to ["tokA"] titled
      "Anna is gestart met studeren!", and one record for each friend. */
  lemma NamedUserExample(deliver: Multicast -> MulticastResponse)
    ensures var before := UserDoc(Bool(false), Str("Anna"), Arr([Str("F1"), Str("F2")]), Undefined);
      var after := UserDoc(Bool(true), Str("Anna"), Arr([Str("F1"), Str("F2")]), Undefined);
      var docs := [Some(UserDoc(Undefined, Undefined, Undefined, Str("tokA"))),
                   Some(UserDoc(Undefined, Undefined, Undefined, Undefined))];
      var r := Handle(Some(before), Some(after), "U", docs, deliver);
      var title := "Anna" + TitleSuffix;
      && r.sends == [Multicast(["tokA"], Notification(title, PushBody),
                               map["type" := FriendStudyStart, "friendUid" := "U"])]
      && r.writes == [InAppRecord(Str("F1"), title, "", FriendStudyStart, "U"),
                      InAppRecord(Str("F2"), title, "", FriendStudyStart, "U")]
  {
    TwoFriendsStartStudying(Str("Anna"), deliver);
  }

  /** The same invocation with a falsy name (absent, empty, `null`, `0`,
      `false`, `NaN`): only the title changes, to the fallback name. */
  lemma UnnamedUserExample(name: JsValue, deliver: Multicast -> MulticastResponse)
    requires !Truthy(name)
    ensures var before := UserDoc(Bool(false), name, Arr([Str("F1"), Str("F2")]), Undefined);
      var after := UserDoc(Bool(true), name, Arr([Str("F1"), Str("F2")]), Undefined);
      var docs := [Some(UserDoc(Undefined, Undefined, Undefined, Str("tokA"))),
                   Some(UserDoc(Undefined, Undefined, Undefined, Undefined))];
      var r := Handle(Some(before), Some(after), "U", docs, deliver);
      var title := FallbackName + TitleSuffix;
      && r.sends == [Multicast(["tokA"], Notification(title, PushBody),
                               map["type" := FriendStudyStart, "friendUid" := "U"])]
      && r.writes == [InAppRecord(Str("F1"), title, "", FriendStudyStart, "U"),
                      InAppRecord(Str("F2"), title, "", FriendStudyStart, "U")]
  {
    TwoFriendsStartStudying(name, deliver);
  }

}
