/** The admin sellers page: the search over seller name and e-mail, and the status badge. */
module AdminSellers {
  import opened Wrappers
  import Seqs
  import AdminCommon

  datatype SellerRow = SellerRow(sellerId: Option<int>, sellerName: Option<string>, email: Option<string>,
                                 isActive: Option<bool>)

  predicate SellerMatches(s: SellerRow, search: string) {
    AdminCommon.SearchHit(s.sellerName, search) || AdminCommon.SearchHit(s.email, search)
  }

  /** `filteredSellers`. */
  function FilteredSellers(sellers: seq<SellerRow>, search: string): (r: seq<SellerRow>)
    ensures Seqs.IsSubsequence(r, sellers)
    ensures forall i :: 0 <= i < |r| ==> SellerMatches(r[i], search)
    ensures forall i :: 0 <= i < |sellers| && SellerMatches(sellers[i], search) ==> sellers[i] in r
  {
    Seqs.Filter(sellers, (s: SellerRow) => SellerMatches(s, search))
  }

  /** With an empty search the sellers with a name or an e-mail are kept, in order, and one
      with neither is dropped. */
  lemma EmptySearchKeepsContactable(sellers: seq<SellerRow>)
    ensures var r := FilteredSellers(sellers, "");
      && (forall i :: 0 <= i < |r| ==> r[i].sellerName.Some? || r[i].email.Some?)
      && (forall i :: 0 <= i < |sellers| && (sellers[i].sellerName.Some? || sellers[i].email.Some?) ==>
            sellers[i] in r)
  {
    forall s: SellerRow ensures SellerMatches(s, "") <==> s.sellerName.Some? || s.email.Some? {
      AdminCommon.EmptySearchHitsPresent(s.sellerName);
      AdminCommon.EmptySearchHitsPresent(s.email);
    }
  }

  /** The status badge text of a row. */
  function SellerStatus(s: SellerRow): (r: string)
    ensures r == "Active" <==> s.isActive != Some(false)
  {
    AdminCommon.StatusLabel(s.isActive)
  }
}
