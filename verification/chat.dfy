/**
 * `onNewChatMessage`: a new document under `planes/{planId}/chats` becomes one
 * multicast push to every subscriber of the plan except the sender.
 */
module Chat {
  import opened Wrappers
  import opened Documents

  /** The new chat document; any field may be missing. */
  datatype ChatDoc = ChatDoc(senderId: Option<string>, senderName: Option<string>, message: Option<string>)

  /** One multicast `sendToDevice(tokens, payload)`. */
  datatype ChatPush = ChatPush(tokens: seq<string>, title: string, body: string, data: map<string, string>)

  /** The subscriber at the loop's current position is the sender. */
  predicate IsSender(senderId: Option<string>, x: Inscrito) {
    senderId == Some(x.userId)
  }

  /**
   * The tokens the loop collects from `subs`, in order: the sender is skipped
   * before any lookup, and so is every subscriber whose token is falsy.
   */
  function ChatTokens(subs: seq<Inscrito>, users: map<string, UserDoc>, senderId: Option<string>): (ts: seq<string>)
    ensures |ts| <= |subs|
    ensures forall k :: 0 <= k < |ts| ==> ts[k] != ""
  {
    if subs == [] then []
    else
      var last := subs[|subs| - 1];
      var rest := ChatTokens(subs[..|subs| - 1], users, senderId);
      if IsSender(senderId, last) || !HasToken(users, last.userId) then rest
      else rest + [TokenOf(users, last.userId).value]
  }

  /** `senderName || 'Alguien'`, a colon, then `message || ''`. */
  function ChatBody(chat: ChatDoc): (b: string)
    ensures var name := if Truthy(chat.senderName) then chat.senderName.value else "Alguien";
      var text := if Truthy(chat.message) then chat.message.value else "";
      && |b| == |name| + 2 + |text|
      && b[..|name|] == name
      && b[|name|..|name| + 2] == ": "
      && (Truthy(chat.message) ==> b[|b| - |chat.message.value|..] == chat.message.value)
      && (!Truthy(chat.message) ==> b[|b| - 2..] == ": ")
  {
    (if Truthy(chat.senderName) then chat.senderName.value else "Alguien")
      + ": " + (if Truthy(chat.message) then chat.message.value else "")
  }

  function ChatData(planId: string): (d: map<string, string>)
    ensures d.Keys == {"planId", "click_action", "type"}
    ensures d["planId"] == planId && d["type"] == "chat_message"
  {
    map["planId" := planId, "click_action" := "FLUTTER_NOTIFICATION_CLICK", "type" := "chat_message"]
  }

  /**
   * `chat` is the snapshot's data (None when the snapshot is empty); the
   * result is the multicast the handler sends, if any.
   */
  method OnNewChatMessage(s: Store, planId: string, chat: Option<ChatDoc>) returns (push: Option<ChatPush>)
    ensures push.Some? <==> chat.Some? && ChatTokens(Subs(s, planId), s.users, chat.value.senderId) != []
    ensures push.Some? ==>
      push.value == ChatPush(ChatTokens(Subs(s, planId), s.users, chat.value.senderId),
                             "Nuevo mensaje en el plan", ChatBody(chat.value), ChatData(planId))
  {
    if chat.None? {
      return None;
    }
    var subs := Subs(s, planId);
    if subs == [] {
      return None;
    }
    var tokens: seq<string> := [];
    var senderId := chat.value.senderId;
    for i := 0 to |subs|
      invariant tokens == ChatTokens(subs[..i], s.users, senderId)
    {
      assert subs[..i + 1][..i] == subs[..i];
      var userId := subs[i].userId;
      if senderId == Some(userId) {
        continue;
      }
      var token := TokenOf(s.users, userId);
      if Truthy(token) {
        tokens := tokens + [token.value];
      }
    }
    assert subs[..|subs|] == subs;
    if tokens == [] {
      return None;
    }
    push := Some(ChatPush(tokens, "Nuevo mensaje en el plan", ChatBody(chat.value), ChatData(planId)));
  }

  /**
   * The sender's profile is never consulted: changing it, token included,
   * changes nothing in the collected tokens.
   */
  lemma {:induction false} SenderProfileIgnored(subs: seq<Inscrito>, users: map<string, UserDoc>,
                                                sender: string, profile: UserDoc)
    ensures ChatTokens(subs, users[sender := profile], Some(sender)) == ChatTokens(subs, users, Some(sender))
  {
    if subs != [] {
      SenderProfileIgnored(subs[..|subs| - 1], users, sender, profile);
    }
  }

  /** Every collected token is the token of a subscriber other than the sender. */
  lemma {:induction false} ChatTokensFromOthers(subs: seq<Inscrito>, users: map<string, UserDoc>,
                                                senderId: Option<string>)
    ensures forall t :: t in ChatTokens(subs, users, senderId) ==>
      exists x :: x in subs && !IsSender(senderId, x) && TokenOf(users, x.userId) == Some(t)
  {
    if subs != [] {
      var init := subs[..|subs| - 1];
      ChatTokensFromOthers(init, users, senderId);
      forall t | t in ChatTokens(subs, users, senderId)
        ensures exists x :: x in subs && !IsSender(senderId, x) && TokenOf(users, x.userId) == Some(t)
      {
        if t in ChatTokens(init, users, senderId) {
          var x :| x in init && !IsSender(senderId, x) && TokenOf(users, x.userId) == Some(t);
          assert x in subs;
        } else {
          assert subs[|subs| - 1] in subs;
        }
      }
    }
  }

  /** Every other subscriber with a token is reached. */
  lemma {:induction false} ChatTokensReachOthers(subs: seq<Inscrito>, users: map<string, UserDoc>,
                                                 senderId: Option<string>)
    ensures forall x :: x in subs && !IsSender(senderId, x) && HasToken(users, x.userId) ==>
      TokenOf(users, x.userId).value in ChatTokens(subs, users, senderId)
  {
    if subs != [] {
      var init := subs[..|subs| - 1];
      ChatTokensReachOthers(init, users, senderId);
      forall x | x in subs && !IsSender(senderId, x) && HasToken(users, x.userId)
        ensures TokenOf(users, x.userId).value in ChatTokens(subs, users, senderId)
      {
        if x != subs[|subs| - 1] {
          var k :| 0 <= k < |subs| && subs[k] == x;
          assert init[k] == x;
        }
      }
    }
  }

  /**
   * The subscribers the loop sends to, selected front to back: every one that
   * is not the sender and has a token.
   */
  function ChatRecipients(subs: seq<Inscrito>, users: map<string, UserDoc>, senderId: Option<string>): (r: seq<Inscrito>)
    ensures forall k :: 0 <= k < |r| ==> !IsSender(senderId, r[k]) && HasToken(users, r[k].userId)
  {
    if subs == [] then []
    else
      var head := if !IsSender(senderId, subs[0]) && HasToken(users, subs[0].userId) then [subs[0]] else [];
      head + ChatRecipients(subs[1..], users, senderId)
  }

  lemma {:induction false} ChatRecipientsSnoc(subs: seq<Inscrito>, x: Inscrito,
                                              users: map<string, UserDoc>, senderId: Option<string>)
    ensures ChatRecipients(subs + [x], users, senderId) ==
      ChatRecipients(subs, users, senderId)
      + (if !IsSender(senderId, x) && HasToken(users, x.userId) then [x] else [])
  {
    if subs != [] {
      assert (subs + [x])[1..] == subs[1..] + [x];
      ChatRecipientsSnoc(subs[1..], x, users, senderId);
    }
  }

  /**
   * The collected tokens follow the subscribers in iteration order: the k-th
   * token is the token of the k-th subscriber who is not the sender and has
   * one, one token per such subscriber.
   */
  lemma {:induction false} ChatTokensInOrder(subs: seq<Inscrito>, users: map<string, UserDoc>,
                                             senderId: Option<string>)
    ensures var r := ChatRecipients(subs, users, senderId);
      && |ChatTokens(subs, users, senderId)| == |r|
      && forall k :: 0 <= k < |r| ==> ChatTokens(subs, users, senderId)[k] == TokenOf(users, r[k].userId).value
  {
    if subs != [] {
      var init := subs[..|subs| - 1];
      var last := subs[|subs| - 1];
      assert subs == init + [last];
      ChatRecipientsSnoc(init, last, users, senderId);
      ChatTokensInOrder(init, users, senderId);
    }
  }

  /**
   * The sender's own token is not among the recipients unless another
   * subscriber's profile holds the very same token.
   */
  lemma SenderTokenExcluded(subs: seq<Inscrito>, users: map<string, UserDoc>, sender: string)
    requires HasToken(users, sender)
    requires forall x :: x in subs && x.userId != sender ==> TokenOf(users, x.userId) != TokenOf(users, sender)
    ensures TokenOf(users, sender).value !in ChatTokens(subs, users, Some(sender))
  {
    ChatTokensFromOthers(subs, users, Some(sender));
  }
}
