/** The wishlist entry and the paged wishlist answer. */
module WishlistItemModel {
  import opened Common
  import opened Text
  import ProductModel
  import AuthModel

  datatype WishlistId = WishlistId(oid: string)

  /** A wishlist entry. `product` is null when the product it pointed to is
      gone. */
  datatype WishlistItem = WishlistItem(
    id: Option<WishlistId>,
    title: string,
    product: Option<ProductModel.ApiProduct>,
    mrp: real,
    discount: string,
    brand: string,
    image: Option<string>,
    user: AuthModel.User,
    createdAt: Option<string>,
    updatedAt: Option<string>)

  /** `GET /v1/wishlist`'s answer; the server sends `limit` as a string. */
  datatype WishlistResponse = WishlistResponse(
    results: seq<WishlistItem>,
    page: int,
    limit: string,
    totalPages: Option<int>,
    totalResults: int)

  /** What `POST /v1/wishlist` is sent: the product id goes in `product`. */
  datatype AddToWishlistRequest = AddToWishlistRequest(
    title: string,
    product: string,
    mrp: real,
    discount: Option<string>,
    brand: string,
    image: Option<string>)

  /** `s.takeIf { it.isNotBlank() }?.toInt() ?: 0` with a
      `NumberFormatException` caught as 0: `s` read as an `Int`, and 0 when it
      is blank or not a well-formed integer. It never throws. */
  function LenientInt(s: string): (n: int)
    ensures IsBlank(s) ==> n == 0
    ensures ParseInt(s).Some? ==> n == ParseInt(s).value
    ensures ParseInt(s).None? ==> n == 0
  {
    if IsBlank(s) then 0 else ParseInt(s).GetOr(0)
  }

  /** `limitInt`: the page size the server sent as a string, leniently read. */
  function LimitInt(r: WishlistResponse): (n: int)
    ensures IntMin <= n <= IntMax
    ensures IsBlank(r.limit) || ParseInt(r.limit).None? ==> n == 0
    ensures ParseInt(r.limit).Some? ==> n == ParseInt(r.limit).value
  {
    LenientInt(r.limit)
  }

  /** The blank test in front of the parse changes nothing: a blank string
      never parses. */
  lemma BlankNeverParses(s: string)
    requires IsBlank(s)
    ensures ParseInt(s).None?
  {
    if s != [] {
      assert IsWhitespace(s[0]);
    }
  }

  /** The lenient read is exactly "the parse, or 0". */
  lemma LenientIntIsParseOrZero(s: string)
    ensures LenientInt(s) == ParseInt(s).GetOr(0)
  {
    if IsBlank(s) {
      BlankNeverParses(s);
    }
  }

  /** Malformed limits read as 0. */
  lemma LimitIntMalformed(r: WishlistResponse)
    requires r.limit in {"10.5", " 5", "abc", "", "+", "-"}
    ensures LimitInt(r) == 0
  {
    var s := r.limit;
    if s == "10.5" {
      assert !IsDigit(s[2]);
    } else if s == " 5" {
      assert IsBlank(" ") && !IsDigit(s[0]);
    } else if s == "abc" {
      assert !IsDigit(s[0]);
    }
  }
}
