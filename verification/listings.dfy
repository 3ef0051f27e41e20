/**
 * The `Listing` record and `ListingService`: fetching, saving, updating and the
 * ownership-gated deletion of listings in the `listings` collection.
 */
module Listings {
  import opened Wrappers
  import opened Sequences
  import opened Documents

  /** A marketplace listing; the price is kept as an abstract integer. */
  datatype Listing = Listing(id: string, title: string, description: string, price: int,
                             images: seq<string>, category: string, sellerId: string,
                             createdAt: int, sellerName: string)

  /** `setData(from: listing)`: every stored property, the date as a timestamp. */
  function EncodeListing(l: Listing): Fields {
    map["id" := StringValue(l.id), "title" := StringValue(l.title), "description" := StringValue(l.description),
        "price" := IntValue(l.price), "images" := StringArray(l.images), "category" := StringValue(l.category),
        "sellerId" := StringValue(l.sellerId), "createdAt" := TimestampValue(l.createdAt),
        "sellerName" := StringValue(l.sellerName)]
  }

  /** `data(as: Listing.self)`: all nine properties are required. */
  function DecodeListing(f: Fields): Option<Listing> {
    var id := RequiredString(f, "id");
    var title := RequiredString(f, "title");
    var description := RequiredString(f, "description");
    var price := RequiredInt(f, "price");
    var images := RequiredStrings(f, "images");
    var category := RequiredString(f, "category");
    var sellerId := RequiredString(f, "sellerId");
    var createdAt := RequiredDate(f, "createdAt");
    var sellerName := RequiredString(f, "sellerName");
    if id.Some? && title.Some? && description.Some? && price.Some? && images.Some? && category.Some?
       && sellerId.Some? && createdAt.Some? && sellerName.Some?
    then Some(Listing(id.value, title.value, description.value, price.value, images.value, category.value,
                      sellerId.value, createdAt.value, sellerName.value))
    else None
  }

  /** A stored listing reads back unchanged. */
  lemma ListingRoundTrip(l: Listing)
    ensures DecodeListing(EncodeListing(l)) == Some(l)
  {
  }

  /** A listing document decoded, with its id replaced by the document id (`fetchListings`). */
  function ListingFromDocument(d: Doc): Option<Listing> {
    match DecodeListing(d.fields)
    case Some(l) => Some(l.(id := d.id))
    case None => None
  }

  /** `fetchListings`: [] on an error or a missing snapshot, otherwise the decodable listings in query order. */
  function FetchListings(snapshot: Snapshot): seq<Listing> {
    match snapshot
    case SnapshotError => []
    case NoDocuments => []
    case Documents(docs) => CompactMap(docs, ListingFromDocument)
  }

  /**
   * The fetched listings are exactly the decodings of the snapshot's documents, each under its
   * document id, newest first when the store delivers them newest first.
   */
  lemma FetchListingsExactly(docs: seq<Doc>, l: Listing)
    ensures l in FetchListings(Documents(docs)) <==>
              exists i :: 0 <= i < |docs| && DecodeListing(docs[i].fields).Some? &&
                          l == DecodeListing(docs[i].fields).value.(id := docs[i].id)
    ensures NewestFirst(docs, "createdAt") ==>
              var ls := FetchListings(Documents(docs));
              forall i, j :: 0 <= i < j < |ls| ==> ls[i].createdAt >= ls[j].createdAt
  {
    CompactMapMembership(docs, ListingFromDocument, l);
    if NewestFirst(docs, "createdAt") {
      var docKey := (d: Doc) => match TimestampKey(d, "createdAt") case Some(t) => Some(-t) case None => None;
      var key := (x: Listing) => Some(-x.createdAt);
      CompactMapOrdered(docs, ListingFromDocument, docKey, key);
      var ls := FetchListings(Documents(docs));
      assert ls == CompactMap(docs, ListingFromDocument);
      forall i, j | 0 <= i < j < |ls| ensures ls[i].createdAt >= ls[j].createdAt {
        assert key(ls[i]).value <= key(ls[j]).value;
      }
    }
  }

  /** An error yields no listings at all. */
  lemma FetchListingsError()
    ensures FetchListings(SnapshotError) == [] && FetchListings(NoDocuments) == []
  {
  }

  /**
   * `saveListing`: the listing gets the freshly generated document id and is written there.
   * A serialisation error or a write error reports false with a message and writes nothing;
   * success reports true with the new id.
   */
  method SaveListing(db: Database, listing: Listing, newDocId: string,
                     serializeError: Option<string>, writeError: Option<string>)
    returns (ok: bool, message: Option<string>)
    modifies db`listings
    ensures serializeError.Some? ==>
              !ok && message == Some("Error serializing listing: " + serializeError.value) && db.listings == old(db.listings)
    ensures serializeError.None? && writeError.Some? ==>
              !ok && message == Some("Error saving listing: " + writeError.value) && db.listings == old(db.listings)
    ensures serializeError.None? && writeError.None? ==>
              ok && message == Some(newDocId) &&
              db.listings == old(db.listings)[newDocId := EncodeListing(listing.(id := newDocId))]
  {
    var stored := listing.(id := newDocId);
    if serializeError.Some? {
      return false, Some("Error serializing listing: " + serializeError.value);
    }
    if writeError.Some? {
      return false, Some("Error saving listing: " + writeError.value);
    }
    db.listings := db.listings[newDocId := EncodeListing(stored)];
    ok, message := true, Some(newDocId);
  }

  /**
   * `updateListing`: an empty id is refused without writing; otherwise the listing overwrites
   * the document at its id, and the result says whether the write succeeded.
   */
  method UpdateListing(db: Database, listing: Listing, serializeFails: bool, writeFails: bool) returns (ok: bool)
    modifies db`listings
    ensures listing.id == "" || serializeFails || writeFails ==> !ok && db.listings == old(db.listings)
    ensures listing.id != "" && !serializeFails && !writeFails ==>
              ok && db.listings == old(db.listings)[listing.id := EncodeListing(listing)]
  {
    if listing.id == "" {
      return false;
    }
    if serializeFails || writeFails {
      return false;
    }
    db.listings := db.listings[listing.id := EncodeListing(listing)];
    ok := true;
  }

  /** The seller recorded in a stored listing, as `data["sellerId"] as? String` reads it. */
  function StoredSeller(listings: map<string, Fields>, listingId: string): Option<string> {
    if listingId in listings then RequiredString(listings[listingId], "sellerId") else None
  }

  /**
   * `deleteListing`: refused without a signed-in user, when the read fails, when the document
   * or its `sellerId` is missing, and when the seller is someone else. Only the seller's own
   * listing is deleted, and then only when the delete succeeds.
   */
  method DeleteListing(db: Database, user: Option<User>, listingId: string, readFails: bool, deleteFails: bool)
    returns (ok: bool)
    modifies db`listings
    ensures ok <==> user.Some? && !readFails && !deleteFails && StoredSeller(old(db.listings), listingId) == Some(user.value.uid)
    ensures ok ==> db.listings == old(db.listings) - {listingId} && listingId in old(db.listings)
    ensures !ok ==> db.listings == old(db.listings)
  {
    if user.None? {
      return false;
    }
    if readFails {
      return false;
    }
    var seller := StoredSeller(db.listings, listingId);
    if seller.None? {
      return false;
    }
    if seller.value != user.value.uid {
      return false;
    }
    if deleteFails {
      return false;
    }
    db.listings := db.listings - {listingId};
    ok := true;
  }
}
