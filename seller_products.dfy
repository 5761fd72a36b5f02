/** The seller's product list search: a case-insensitive substring match on
    the name or, when present, the description. */
module SellerProducts {
  import opened Common
  import opened Types

  /** The test applied to each product. */
  predicate Matches(p: Product, term: string)
  {
    Contains(Lower(p.name), Lower(term))
    || (p.description.Some? && Contains(Lower(p.description.value), Lower(term)))
  }

  /** `filteredProducts`. */
  function FilteredProducts(products: seq<Product>, term: string): (r: seq<Product>)
    ensures forall p :: p in r <==> p in products && Matches(p, term)
    ensures Subsequence(r, products)
  {
    FilterIsSubsequence(products, (p: Product) => Matches(p, term));
    Filter(products, (p: Product) => Matches(p, term))
  }

  /** The empty search shows every product. */
  lemma EmptyTermKeepsAll(products: seq<Product>)
    ensures FilteredProducts(products, "") == products
  {
    forall i | 0 <= i < |products|
      ensures Matches(products[i], "")
    {
      ContainsEmpty(Lower(products[i].name));
    }
    FilterKeepsAll(products, (p: Product) => Matches(p, ""));
  }

  /** A product without a description is found through its name only. */
  lemma NoDescriptionMatchesOnName(products: seq<Product>, term: string, p: Product)
    requires p in products && p.description.None?
    ensures p in FilteredProducts(products, term) <==> Contains(Lower(p.name), Lower(term))
  {
  }

  /** The search ignores ASCII letter case on both sides. */
  lemma SearchIgnoresCase(products: seq<Product>, term: string)
    ensures FilteredProducts(products, Lower(term)) == FilteredProducts(products, term)
  {
    LowerIdempotent(term);
    FilterAgree(products, (p: Product) => Matches(p, Lower(term)), (p: Product) => Matches(p, term));
  }

  lemma LowerIdempotent(s: string)
    ensures Lower(Lower(s)) == Lower(s)
  {
  }
}
