/**
 * `ListingDetailView`: who counts as the listing's owner, which actions the screen offers,
 * starting a chat with the seller (never with yourself), and the seller-name fallback.
 */
module ListingDetail {
  import opened Wrappers
  import opened Documents
  import opened ChatRecords
  import opened ChatService
  import opened Listings

  /** The fixed text a buyer's first message carries. */
  const ChatOpener := "Hi! Is this still available?"

  /** `isCurrentUserOwner`: signed in, and the uid is the listing's seller. */
  predicate IsCurrentUserOwner(user: Option<User>, listing: Listing)
    ensures IsCurrentUserOwner(user, listing) ==> user.Some?
    ensures user.Some? ==> (IsCurrentUserOwner(user, listing) <==> user.value.uid == listing.sellerId)
  {
    user.Some? && user.value.uid == listing.sellerId
  }

  datatype Action = EditListing | DeleteListing | MessageSeller

  /** The buttons shown: edit and delete for the owner, "Message Seller" for everyone else. */
  function ActionsShown(user: Option<User>, listing: Listing): (actions: set<Action>)
    ensures MessageSeller in actions <==> !IsCurrentUserOwner(user, listing)
    ensures EditListing in actions <==> DeleteListing in actions
    ensures EditListing in actions <==> MessageSeller !in actions
  {
    if IsCurrentUserOwner(user, listing) then {EditListing, DeleteListing} else {MessageSeller}
  }

  class ListingDetailScreen {
    const listing: Listing
    var sellerName: string
    var chatId: Option<string>
    var showChatDetail: bool

    constructor (listing: Listing)
      ensures this.listing == listing && sellerName == "Loading..." && chatId == None && !showChatDetail
    {
      this.listing := listing;
      sellerName := "Loading...";
      chatId := None;
      showChatDetail := false;
    }

    /** `fetchSellerName`'s completion: the name, or "Unknown" when the lookup gave nil. */
    method OnSellerName(name: Option<string>)
      modifies this`sellerName
      ensures sellerName == name.GetOr("Unknown")
      ensures name.None? ==> sellerName == "Unknown"
    {
      sellerName := name.GetOr("Unknown");
    }

    /**
     * `initiateChat`: does nothing without a signed-in user or when the user is the seller.
     * Otherwise it creates the chat with the seller and the fixed opener; only a non-nil chat id
     * coming back enables navigation to the chat.
     */
    method InitiateChat(db: Database, user: Option<User>, createdAt: int, messageUuid: string,
                        messageTimestamp: int, messageDocId: string, chatWriteOk: bool, messageWriteOk: bool)
      modifies this`chatId, this`showChatDetail, db`chats, db`messages
      ensures user.None? || user.value.uid == listing.sellerId || !chatWriteOk ==>
                && chatId == old(chatId) && showChatDetail == old(showChatDetail)
                && db.chats == old(db.chats) && db.messages == old(db.messages)
      ensures user.Some? && user.value.uid != listing.sellerId && chatWriteOk ==>
                var id := ChatIdOf(user.value.uid, listing.sellerId);
                && chatId == Some(id) && showChatDetail
                && db.chats == old(db.chats)[id := ChatFields(SortedPair(user.value.uid, listing.sellerId), createdAt, ChatOpener)]
                && db.messages == if messageWriteOk
                                  then old(db.messages)[id := old(db.MessageLog(id)) + [Doc(messageDocId,
                                         MessageFields(messageUuid, ChatOpener, messageTimestamp, EmailOrUnknown(user.value)))]]
                                  else old(db.messages)
      ensures showChatDetail && !old(showChatDetail) ==> !IsCurrentUserOwner(user, listing) && chatId.Some?
    {
      if user.None? || user.value.uid == listing.sellerId {
        return;
      }
      var created := CreateChat(db, user, listing.sellerId, ChatOpener, createdAt, messageUuid,
                                messageTimestamp, messageDocId, chatWriteOk, messageWriteOk);
      if created.Some? {
        chatId := created;
        showChatDetail := true;
      }
    }

    /** The delete button: the screen is dismissed exactly when the service reports success. */
    method Delete(db: Database, user: Option<User>, readFails: bool, deleteFails: bool) returns (dismissed: bool)
      modifies db`listings
      ensures dismissed <==> user.Some? && !readFails && !deleteFails &&
                             StoredSeller(old(db.listings), listing.id) == Some(user.value.uid)
      ensures dismissed ==> db.listings == old(db.listings) - {listing.id}
      ensures !dismissed ==> db.listings == old(db.listings)
    {
      dismissed := Listings.DeleteListing(db, user, listing.id, readFails, deleteFails);
    }
  }

  /** The chat the detail screen starts always joins two different people, the buyer and the seller. */
  lemma InitiatedChatPairsBuyerAndSeller(buyer: string, listing: Listing)
    requires buyer != listing.sellerId
    ensures var p := SortedPair(buyer, listing.sellerId);
            p[0] != p[1] && multiset(p) == multiset{buyer, listing.sellerId}
  {
    var p := SortedPair(buyer, listing.sellerId);
    assert multiset(p)[buyer] == 1 && multiset(p)[listing.sellerId] == 1;
  }
}
