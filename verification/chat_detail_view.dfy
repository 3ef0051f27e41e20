/**
 * `ChatDetailView` and `SendMessageView`: the message list of one chat, classified into
 * outgoing and incoming, and the send bar, which sends a non-empty draft as typed and then
 * clears it.
 */
module ChatDetail {
  import opened Wrappers
  import opened Documents
  import opened ChatRecords
  import ChatService
  import opened MessageManagement

  /** A message is outgoing when its username is the signed-in user's e-mail. */
  predicate IsOutgoing(m: Message, currentEmail: Option<string>) {
    currentEmail == Some(m.username)
  }

  /**
   * Messages a user sends show as outgoing to that user exactly when the user has an e-mail;
   * without one they are stamped "Unknown" and shown as incoming, as is everything else.
   */
  lemma OutgoingClassification(user: User, id: string, text: string, timestamp: int, m: Message)
    ensures IsOutgoing(Message(id, text, timestamp, ChatService.EmailOrUnknown(user)), user.email) <==> user.email.Some?
    ensures IsOutgoing(m, user.email) <==> user.email.Some? && m.username == user.email.value
  {
  }

  /** `SendMessageView`'s draft. */
  class SendBar {
    var messageText: string

    constructor ()
      ensures messageText == ""
    {
      messageText := "";
    }

    /** The send button is enabled exactly while the draft is non-empty. */
    predicate SendEnabled()
      reads this
    {
      messageText != ""
    }

    /**
     * The send button's action: a non-empty draft is handed to `onSend` untrimmed and then
     * cleared; an empty draft sends nothing.
     */
    method Tap() returns (sent: Option<string>)
      modifies this
      ensures old(messageText) == "" ==> sent == None && messageText == ""
      ensures old(messageText) != "" ==> sent == Some(old(messageText)) && messageText == ""
      ensures sent.Some? <==> old(SendEnabled())
    {
      if messageText != "" {
        sent := Some(messageText);
        messageText := "";
      } else {
        sent := None;
      }
    }
  }

  class ChatDetailScreen {
    const chatId: string
    const manager: MessageManager
    const sendBar: SendBar

    constructor (chatId: string)
      ensures this.chatId == chatId && fresh(manager) && fresh(sendBar)
      ensures manager.messages == [] && manager.listeners == [] && sendBar.messageText == ""
    {
      this.chatId := chatId;
      manager := new MessageManager();
      sendBar := new SendBar();
    }

    /** Appearing subscribes to the messages of this screen's chat. */
    method Appear()
      modifies manager`listeners
      ensures manager.listeners == old(manager.listeners) + [chatId]
    {
      manager.FetchMessages(chatId);
    }

    /** The rows: each message's text with its outgoing flag, in list order. */
    function Rows(currentEmail: Option<string>): (rows: seq<(string, bool)>)
      reads this, manager
      ensures |rows| == |manager.messages|
      ensures forall i :: 0 <= i < |rows| ==>
                rows[i].0 == manager.messages[i].text && (rows[i].1 <==> IsOutgoing(manager.messages[i], currentEmail))
    {
      seq(|manager.messages|, i requires 0 <= i < |manager.messages| reads this, manager =>
        (manager.messages[i].text, IsOutgoing(manager.messages[i], currentEmail)))
    }

    /**
     * Tapping send: an empty draft changes nothing; otherwise the draft, as typed, goes to
     * `sendMessage` for this screen's chat and the draft is cleared.
     */
    method TapSend(db: Database, user: Option<User>, uuid: string, timestamp: int, docId: string,
                   appendOk: bool, updateOk: bool)
      modifies sendBar, db`messages, db`chats
      ensures old(sendBar.messageText) == "" ==>
                db.messages == old(db.messages) && db.chats == old(db.chats) && sendBar.messageText == ""
      ensures old(sendBar.messageText) != "" ==> sendBar.messageText == ""
      ensures old(sendBar.messageText) != "" && user.Some? && appendOk ==>
                var content := old(sendBar.messageText);
                && db.messages == old(db.messages)[chatId := old(db.MessageLog(chatId))
                     + [Doc(docId, MessageFields(uuid, content, timestamp, ChatService.EmailOrUnknown(user.value)))]]
                && db.chats == if updateOk then WithLastMessage(old(db.chats), chatId, content) else old(db.chats)
      ensures user.None? || !appendOk ==> db.messages == old(db.messages) && db.chats == old(db.chats)
    {
      var sent := sendBar.Tap();
      if sent.Some? {
        manager.SendMessage(db, user, chatId, sent.value, uuid, timestamp, docId, appendOk, updateOk);
      }
    }
  }
}
