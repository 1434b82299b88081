/** The products screen's search: which products a query keeps, and the
    count line above the list. */
module ProductsScreen {
  import opened Common
  import opened Text
  import opened Collections
  import opened ProductModel

  /** The character folding `ignoreCase = true` compares under, left
      abstract. */
  type CaseFold = char -> char

  function Folded(s: string, fold: CaseFold): (r: string)
    ensures |r| == |s|
    ensures forall i :: 0 <= i < |s| ==> r[i] == fold(s[i])
  {
    seq(|s|, i requires 0 <= i < |s| => fold(s[i]))
  }

  /** `text.contains(query, ignoreCase = true)`. */
  predicate ContainsIgnoreCase(text: string, query: string, fold: CaseFold) {
    Contains(Folded(text, fold), Folded(query, fold))
  }

  /** A product matches when its title, its category's name or its SKU
      contains the query, ignoring case. */
  predicate Matches(p: ApiProduct, query: string, fold: CaseFold) {
    ContainsIgnoreCase(p.title, query, fold)
    || ContainsIgnoreCase(p.category.name, query, fold)
    || ContainsIgnoreCase(p.sku, query, fold)
  }

  function MatchesQuery(query: string, fold: CaseFold): ApiProduct -> bool {
    (p: ApiProduct) => Matches(p, query, fold)
  }

  /** `filteredProducts`: every product for a blank query, otherwise the
      matching ones. */
  function FilteredProducts(products: seq<ApiProduct>, query: string, fold: CaseFold): (shown: seq<ApiProduct>)
    ensures IsBlank(query) ==> shown == products
    ensures !IsBlank(query) ==> forall p :: p in shown ==> p in products && Matches(p, query, fold)
    ensures |shown| <= |products|
  {
    if IsBlank(query) then products else Filter(products, MatchesQuery(query, fold))
  }

  /** Under a non-blank query every matching product is shown. */
  lemma FilterIsComplete(products: seq<ApiProduct>, query: string, fold: CaseFold, p: ApiProduct)
    requires p in products && Matches(p, query, fold)
    ensures p in FilteredProducts(products, query, fold)
  {
    if !IsBlank(query) {
      FilterComplete(products, MatchesQuery(query, fold), p);
    }
  }

  /** The search keeps the catalogue's order, and keeps every occurrence of
      a product exactly when it matches (all of them for a blank query). */
  lemma FilterKeepsOrder(products: seq<ApiProduct>, query: string, fold: CaseFold, p: ApiProduct)
    ensures IsSubsequence(FilteredProducts(products, query, fold), products)
    ensures multiset(FilteredProducts(products, query, fold))[p]
            == if IsBlank(query) || Matches(p, query, fold) then multiset(products)[p] else 0
  {
    if IsBlank(query) {
      ProductsAreOwnSubsequence(products);
    } else {
      FilterIsSubsequence(products, MatchesQuery(query, fold));
      FilterCounts(products, MatchesQuery(query, fold), p);
    }
  }

  lemma {:induction false} ProductsAreOwnSubsequence(products: seq<ApiProduct>)
    ensures IsSubsequence(products, products)
  {
    if products != [] {
      ProductsAreOwnSubsequence(products[1..]);
    }
  }

  /** Folding distributes over concatenation. */
  lemma FoldedAppend(a: string, b: string, fold: CaseFold)
    ensures Folded(a + b, fold) == Folded(a, fold) + Folded(b, fold)
  {
    var whole, parts := Folded(a + b, fold), Folded(a, fold) + Folded(b, fold);
    forall i | 0 <= i < |whole|
      ensures whole[i] == parts[i]
    {
      if i < |a| {
        assert (a + b)[i] == a[i];
      } else {
        assert (a + b)[i] == b[i - |a|];
      }
    }
  }

  /** Typing more of a query never brings back a product the shorter,
      non-blank query had hidden. */
  lemma LongerQueryNarrows(products: seq<ApiProduct>, query: string, more: string, fold: CaseFold, p: ApiProduct)
    requires !IsBlank(query)
    requires p in FilteredProducts(products, query + more, fold)
    ensures p in FilteredProducts(products, query, fold)
  {
    assert !IsBlank(query + more) by {
      var i :| 0 <= i < |query| && !IsWhitespace(query[i]);
      assert (query + more)[i] == query[i];
    }
    FoldedAppend(query, more, fold);
    if ContainsIgnoreCase(p.title, query + more, fold) {
      ContainsPrefix(Folded(p.title, fold), Folded(query, fold), Folded(more, fold));
    } else if ContainsIgnoreCase(p.category.name, query + more, fold) {
      ContainsPrefix(Folded(p.category.name, fold), Folded(query, fold), Folded(more, fold));
    } else {
      ContainsPrefix(Folded(p.sku, fold), Folded(query, fold), Folded(more, fold));
    }
    FilterIsComplete(products, query, fold, p);
  }

  /** The count line, `"${filteredProducts.size} products found"`: it names
      the number of products shown. */
  function ProductsFoundText(shown: seq<ApiProduct>): (text: string)
    ensures |text| > 15 && text[|text| - 15..] == " products found"
    ensures |shown| <= IntMax ==> ParseInt(text[..|text| - 15]) == Some(|shown|)
  {
    var text := IntToString(|shown|) + " products found";
    assert text[..|text| - 15] == IntToString(|shown|);
    assert |shown| <= IntMax ==> ParseInt(text[..|text| - 15]) == Some(|shown|) by {
      if |shown| <= IntMax {
        ParseIntToString(|shown|);
      }
    }
    text
  }
}
