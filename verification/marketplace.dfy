/**
 * `MarketplaceView`: the live list of listings, its loading flag, title search and the
 * thumbnail rule of a listing card.
 */
module Marketplace {
  import opened Wrappers
  import opened Text
  import opened Sequences
  import opened Documents
  import opened Listings

  /** The snapshot listener keeps each listing's stored `id` (it does not substitute the document id). */
  function MarketplaceListings(docs: seq<Doc>): (ls: seq<Listing>)
    ensures |ls| <= |docs|
    ensures (forall i :: 0 <= i < |docs| ==> DecodeListing(docs[i].fields).Some?) ==> |ls| == |docs|
  {
    CompactMap(docs, (d: Doc) => DecodeListing(d.fields))
  }

  /**
   * A delivery shows exactly the listings its documents decode to, failures dropped, and
   * newest first when the store delivers them newest first.
   */
  lemma MarketplaceListingsExactly(docs: seq<Doc>, l: Listing)
    ensures l in MarketplaceListings(docs) <==>
              exists i :: 0 <= i < |docs| && DecodeListing(docs[i].fields) == Some(l)
    ensures NewestFirst(docs, "createdAt") ==>
              var ls := MarketplaceListings(docs);
              forall i, j :: 0 <= i < j < |ls| ==> ls[i].createdAt >= ls[j].createdAt
  {
    var f := (d: Doc) => DecodeListing(d.fields);
    CompactMapMembership(docs, f, l);
    if NewestFirst(docs, "createdAt") {
      var docKey := (d: Doc) => match TimestampKey(d, "createdAt") case Some(t) => Some(-t) case None => None;
      var key := (x: Listing) => Some(-x.createdAt);
      CompactMapOrdered(docs, f, docKey, key);
      var ls := MarketplaceListings(docs);
      assert ls == CompactMap(docs, f);
      forall i, j | 0 <= i < j < |ls| ensures ls[i].createdAt >= ls[j].createdAt {
        assert key(ls[i]).value <= key(ls[j]).value;
      }
    }
  }

  /** `filteredListings`: all listings for an empty search, else those whose title contains it, ignoring case. */
  function FilteredListings(listings: seq<Listing>, searchText: string): seq<Listing> {
    if searchText == "" then listings
    else Filter(listings, (l: Listing) => ContainsIgnoringCase(l.title, searchText))
  }

  /**
   * An empty search shows every listing; otherwise exactly the listings whose title contains
   * the search text, ignoring case, in their original order.
   */
  lemma FilteredListingsSpec(listings: seq<Listing>, searchText: string, l: Listing)
    ensures searchText == "" ==> FilteredListings(listings, searchText) == listings
    ensures searchText != "" ==>
              (l in FilteredListings(listings, searchText) <==> l in listings && ContainsIgnoringCase(l.title, searchText))
    ensures IsSubsequence(FilteredListings(listings, searchText), listings)
  {
    var p := (x: Listing) => ContainsIgnoringCase(x.title, searchText);
    if searchText == "" {
      IdentityIsSubsequence(listings);
    } else {
      FilterIsSubsequence(listings, p);
      if l in listings && p(l) {
        FilterKeeps(listings, p, l);
      }
    }
  }

  /** A search for any non-empty piece of a listing's own title finds that listing. */
  lemma FoundByPieceOfTitle(listings: seq<Listing>, l: Listing, i: nat, j: nat)
    requires l in listings && i < j <= |l.title|
    ensures l in FilteredListings(listings, l.title[i..j])
  {
    ContainsOwnPiece(l.title, i, j);
    FilteredListingsSpec(listings, l.title[i..j], l);
  }

  /** Every sequence is a subsequence of itself. */
  lemma {:induction false} IdentityIsSubsequence<T>(s: seq<T>)
    ensures IsSubsequence(s, s)
  {
    if s != [] {
      IdentityIsSubsequence(s[1..]);
    }
  }

  /** The card's thumbnail: the first image, when there is one and it is not empty. */
  function Thumbnail(l: Listing): (r: Option<string>)
    ensures r.Some? <==> |l.images| > 0 && l.images[0] != ""
    ensures r.Some? ==> r.value == l.images[0]
  {
    if |l.images| > 0 && l.images[0] != "" then Some(l.images[0]) else None
  }

  datatype Content = Spinner | NoListings | Cards(shown: seq<Listing>)

  class MarketplaceScreen {
    var listings: seq<Listing>
    var searchText: string
    var isLoading: bool

    constructor ()
      ensures listings == [] && searchText == "" && isLoading
    {
      listings, searchText, isLoading := [], "", true;
    }

    /** What the screen shows: a spinner while loading, else the empty text or the filtered cards. */
    function Shown(): (c: Content)
      reads this
      ensures c.Cards? ==> c.shown == FilteredListings(listings, searchText) && c.shown != []
      ensures c == Spinner <==> isLoading
      ensures c == NoListings <==> !isLoading && FilteredListings(listings, searchText) == []
    {
      if isLoading then Spinner
      else if FilteredListings(listings, searchText) == [] then NoListings
      else Cards(FilteredListings(listings, searchText))
    }

    /** `setupListener`: loading starts. */
    method SetupListener()
      modifies this`isLoading
      ensures isLoading
    {
      isLoading := true;
    }

    /**
     * One delivery: an error or a missing snapshot keeps the listings; documents replace them
     * with the decodable listings. Loading ends after every delivery.
     */
    method OnSnapshot(snapshot: Snapshot)
      modifies this`listings, this`isLoading
      ensures !isLoading
      ensures snapshot.Documents? ==> listings == MarketplaceListings(snapshot.docs)
      ensures !snapshot.Documents? ==> listings == old(listings)
    {
      if snapshot.Documents? {
        listings := MarketplaceListings(snapshot.docs);
      }
      isLoading := false;
    }
  }

  /**
   * A listing written by `saveListing` shows in the marketplace under its generated document
   * id, since that id is also stored in the record.
   */
  lemma SavedListingShown(before: seq<Doc>, l: Listing, docId: string)
    ensures MarketplaceListings(before + [Doc(docId, EncodeListing(l.(id := docId)))])
            == MarketplaceListings(before) + [l.(id := docId)]
  {
    CompactMapAppend(before, [Doc(docId, EncodeListing(l.(id := docId)))], (d: Doc) => DecodeListing(d.fields));
    ListingRoundTrip(l.(id := docId));
  }
}
