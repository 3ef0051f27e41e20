/**
 * `ChatsView`: the conversation list of the signed-in user, the counterpart of each chat,
 * and the memo of counterpart names, which only grows and is never re-fetched.
 */
module ChatsList {
  import opened Wrappers
  import opened ChatRecords

  /**
   * `participants.first { $0 != currentUid }`: the first participant other than the
   * signed-in user (with no user, simply the first participant).
   */
  function OtherParticipant(participants: seq<string>, currentUid: Option<string>): (r: Option<string>)
    ensures r.Some? ==> exists i :: 0 <= i < |participants| && participants[i] == r.value &&
                          Some(r.value) != currentUid &&
                          forall k :: 0 <= k < i ==> Some(participants[k]) == currentUid
    ensures r.None? <==> forall p :: p in participants ==> Some(p) == currentUid
  {
    if participants == [] then None
    else if Some(participants[0]) != currentUid then Some(participants[0])
    else
      var r := OtherParticipant(participants[1..], currentUid);
      assert forall p :: p in participants ==> p == participants[0] || p in participants[1..];
      if r.Some? then
        ghost var i :| 0 <= i < |participants[1..]| && participants[1..][i] == r.value &&
                       forall k :: 0 <= k < i ==> Some(participants[1..][k]) == currentUid;
        assert participants[i + 1] == r.value;
        r
      else r
  }

  /** The lookup a single chat calls for: its counterpart, when not yet in the memo. */
  function LookupFor(chat: Chat, currentUid: Option<string>, names: map<string, string>): seq<string> {
    match OtherParticipant(chat.participants, currentUid)
    case Some(other) => if other !in names then [other] else []
    case None => []
  }

  /** The name lookups one pass of `fetchParticipantNames` issues, in chat order. */
  function PendingLookups(chats: seq<Chat>, currentUid: Option<string>, names: map<string, string>): seq<string> {
    if chats == [] then []
    else PendingLookups(chats[..|chats| - 1], currentUid, names) + LookupFor(chats[|chats| - 1], currentUid, names)
  }

  /**
   * A pass asks exactly for the counterparts of the listed chats that are not yet in the memo;
   * a name already resolved is never asked for again.
   */
  lemma {:induction false} PendingLookupsExactly(chats: seq<Chat>, currentUid: Option<string>,
                                                 names: map<string, string>, x: string)
    ensures x in PendingLookups(chats, currentUid, names) <==>
              x !in names && exists i :: 0 <= i < |chats| && OtherParticipant(chats[i].participants, currentUid) == Some(x)
  {
    if chats != [] {
      var n := |chats| - 1;
      var init := chats[..n];
      PendingLookupsExactly(init, currentUid, names, x);
      var last := LookupFor(chats[n], currentUid, names);
      assert PendingLookups(chats, currentUid, names) == PendingLookups(init, currentUid, names) + last;
      assert x in last <==> x !in names && OtherParticipant(chats[n].participants, currentUid) == Some(x);
      if x in PendingLookups(init, currentUid, names) {
        var i :| 0 <= i < |init| && OtherParticipant(init[i].participants, currentUid) == Some(x);
        assert init[i] == chats[i];
      }
      if exists i :: 0 <= i < |chats| && OtherParticipant(chats[i].participants, currentUid) == Some(x) {
        var i :| 0 <= i < |chats| && OtherParticipant(chats[i].participants, currentUid) == Some(x);
        if i < n {
          assert init[i] == chats[i];
        }
      }
    }
  }

  /** What the chat list shows: the "No conversations found." text, or (name, last message) rows. */
  datatype ChatsContent = NoConversations | ChatRows(rows: seq<(string, string)>)

  class ChatsScreen {
    /** The listed chats (`@State chats`). */
    var chats: seq<Chat>
    /** The memo of counterpart names (`@State userNames`). */
    var userNames: map<string, string>

    constructor ()
      ensures chats == [] && userNames == map[]
    {
      chats, userNames := [], map[];
    }

    /**
     * The list: the empty-state text exactly when there are no chats, otherwise one row per
     * chat, in order, with its counterpart's name and its last message.
     */
    function Shown(currentUid: Option<string>): (c: ChatsContent)
      reads this
      ensures c == NoConversations <==> chats == []
      ensures c.ChatRows? ==>
                && |c.rows| == |chats|
                && forall i :: 0 <= i < |chats| ==>
                     c.rows[i] == (RowUserName(chats[i], currentUid), RowLastMessage(chats[i]))
    {
      if chats == [] then NoConversations
      else ChatRows(seq(|chats|, i requires 0 <= i < |chats| reads this =>
                                   (RowUserName(chats[i], currentUid), RowLastMessage(chats[i]))))
    }

    /**
     * `fetchParticipantNames(for:)`: walks the chats and issues a name lookup for every
     * counterpart missing from the memo. The memo itself is only written by the lookups'
     * completions, so one pass may ask twice for a counterpart shared by two chats.
     */
    method ParticipantLookups(cs: seq<Chat>, currentUid: Option<string>) returns (lookups: seq<string>)
      ensures lookups == PendingLookups(cs, currentUid, userNames)
      ensures forall x :: x in lookups ==> x !in userNames
    {
      lookups := [];
      for i := 0 to |cs|
        invariant lookups == PendingLookups(cs[..i], currentUid, userNames)
      {
        assert cs[..i + 1][..i] == cs[..i];
        match OtherParticipant(cs[i].participants, currentUid) {
          case Some(other) =>
            if other !in userNames {
              lookups := lookups + [other];
            }
          case None =>
        }
      }
      assert cs[..|cs|] == cs;
      forall x | x in lookups ensures x !in userNames {
        PendingLookupsExactly(cs, currentUid, userNames, x);
      }
    }

    /**
     * One delivery of the chat listener (`fetchChatsAndParticipantNames`): the list is replaced
     * by the delivered chats (an empty list on a listener error), then name resolution runs
     * over the new list.
     */
    method OnChatsDelivered(fetched: seq<Chat>, currentUid: Option<string>) returns (lookups: seq<string>)
      modifies this`chats
      ensures chats == fetched
      ensures lookups == PendingLookups(fetched, currentUid, userNames)
    {
      chats := fetched;
      lookups := ParticipantLookups(fetched, currentUid);
    }

    /**
     * A lookup's completion: the name, or "Unknown" for nil, is stored under the counterpart;
     * no name is ever removed.
     */
    method OnNameResolved(otherId: string, name: Option<string>)
      modifies this`userNames
      ensures userNames == old(userNames)[otherId := name.GetOr("Unknown")]
      ensures old(userNames).Keys <= userNames.Keys
    {
      userNames := userNames[otherId := name.GetOr("Unknown")];
    }

    /** The row title: the memoized counterpart name, "Unknown" while unresolved. */
    function RowUserName(chat: Chat, currentUid: Option<string>): (name: string)
      reads this`userNames
      ensures OtherParticipant(chat.participants, currentUid).Some? ==>
                var other := OtherParticipant(chat.participants, currentUid).value;
                && (other in userNames ==> name == userNames[other])
                && (other !in userNames ==> name == "Unknown")
      ensures name == "Unknown" || name in userNames.Values
    {
      var key := OtherParticipant(chat.participants, currentUid).GetOr("Unknown");
      if key in userNames then userNames[key] else "Unknown"
    }
  }

  /** The row subtitle: the last message, "No message available" when there is none. */
  function RowLastMessage(chat: Chat): (r: string)
    ensures chat.lastMessage.Some? ==> r == chat.lastMessage.value
    ensures chat.lastMessage.None? ==> r == "No message available"
  {
    chat.lastMessage.GetOr("No message available")
  }

  /**
   * Once a counterpart's name is resolved, the row shows it and the next pass does not ask for
   * it; until then the row shows "Unknown".
   */
  lemma ResolvedNameShownAndNotRefetched(screenNames: map<string, string>, chats: seq<Chat>, chat: Chat,
                                        currentUid: Option<string>, other: string, name: Option<string>)
    requires OtherParticipant(chat.participants, currentUid) == Some(other)
    ensures var names := screenNames[other := name.GetOr("Unknown")];
            && other !in PendingLookups(chats, currentUid, names)
            && names[other] == name.GetOr("Unknown")
  {
    PendingLookupsExactly(chats, currentUid, screenNames[other := name.GetOr("Unknown")], other);
  }
}
