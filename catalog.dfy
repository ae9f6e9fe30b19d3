/**
 * The product catalogue: documents of the products collection, read in the
 * collection's natural order, looked up by id, searched by name and listed
 * as recommendations beside a product page.
 */
module Catalog {
  import opened Wrappers
  import opened Sequences

  type ProductId = string

  /** A catalogue document. The price is a whole number of cents, so sums are exact. */
  datatype Product = Product(id: ProductId, name: string, price: nat, description: string)

  /** The first product of the catalogue with the given id, or None when no product has it. */
  function Lookup(catalog: seq<Product>, id: ProductId): (r: Option<Product>)
    ensures r.Some? ==> r.value in catalog && r.value.id == id
    ensures r.None? <==> forall p :: p in catalog ==> p.id != id
  {
    if catalog == [] then None
    else if catalog[0].id == id then Some(catalog[0])
    else
      assert forall p :: p in catalog <==> p == catalog[0] || p in catalog[1..];
      Lookup(catalog[1..], id)
  }

  /** The price of a product, or 0 when the id does not resolve. */
  function UnitPrice(catalog: seq<Product>, id: ProductId): nat
  {
    match Lookup(catalog, id)
    case Some(p) => p.price
    case None => 0
  }

  /** ASCII lower-casing of one character. */
  function LowerChar(c: char): char
  {
    if 'A' <= c <= 'Z' then (c as int - 'A' as int + 'a' as int) as char else c
  }

  /** ASCII lower-casing of a string, character by character. */
  function Lower(s: string): string
  {
    seq(|s|, i requires 0 <= i < |s| => LowerChar(s[i]))
  }

  /** The substring test of the search box: does needle occur in hay? */
  function Contains(hay: string, needle: string): bool
  {
    needle <= hay || (hay != [] && Contains(hay[1..], needle))
  }

  /** needle occurs in hay starting at position k. */
  ghost predicate OccursAt(needle: string, hay: string, k: int)
  {
    0 <= k && k + |needle| <= |hay| && hay[k..k + |needle|] == needle
  }

  /** Reference definition of "needle occurs in hay at some position". */
  ghost predicate Occurs(needle: string, hay: string)
  {
    exists k :: OccursAt(needle, hay, k)
  }

  /** An occurrence one position into hay is an occurrence in hay[1..], and back. */
  lemma OccursShift(needle: string, hay: string, k: int)
    requires hay != [] && 1 <= k
    ensures OccursAt(needle, hay, k) <==> OccursAt(needle, hay[1..], k - 1)
  {
    if k + |needle| <= |hay| {
      assert hay[1..][k - 1..k - 1 + |needle|] == hay[k..k + |needle|];
    }
  }

  /** When the test holds, the needle occurs in hay. */
  lemma {:induction false} ContainsFindsOccurrence(hay: string, needle: string)
    requires Contains(hay, needle)
    ensures Occurs(needle, hay)
  {
    if needle <= hay {
      assert OccursAt(needle, hay, 0);
    } else {
      ContainsFindsOccurrence(hay[1..], needle);
      var k :| OccursAt(needle, hay[1..], k);
      OccursShift(needle, hay, k + 1);
    }
  }

  /** When the needle occurs in hay, the test holds. */
  lemma {:induction false} OccurrenceSatisfiesContains(hay: string, needle: string, k: int)
    requires OccursAt(needle, hay, k)
    ensures Contains(hay, needle)
    decreases k
  {
    if k > 0 {
      OccursShift(needle, hay, k);
      OccurrenceSatisfiesContains(hay[1..], needle, k - 1);
    } else {
      assert hay[..|needle|] == needle;
    }
  }

  /** The recursive substring test agrees with the positional definition. */
  lemma ContainsOccurs(hay: string, needle: string)
    ensures Contains(hay, needle) <==> Occurs(needle, hay)
  {
    if Contains(hay, needle) {
      ContainsFindsOccurrence(hay, needle);
    }
    if Occurs(needle, hay) {
      var k :| OccursAt(needle, hay, k);
      OccurrenceSatisfiesContains(hay, needle, k);
    }
  }

  /** Does the product's name contain the query, ignoring ASCII case? */
  predicate Matches(p: Product, query: string)
  {
    Contains(Lower(p.name), Lower(query))
  }

  function MatchesQuery(query: string): Product -> bool
  {
    (p: Product) => Matches(p, query)
  }

  /**
   * The catalogue page: every product when the query is empty, otherwise the
   * products whose name contains the query case-insensitively, in catalogue order.
   */
  function Search(products: seq<Product>, query: string): (r: seq<Product>)
    ensures |r| <= |products|
    ensures forall p :: p in r <==> p in products && Matches(p, query)
  {
    if query == "" then
      assert forall p :: Matches(p, query) by {
        forall p ensures Matches(p, query) {
          assert Lower(query) <= Lower(p.name);
        }
      }
      products
    else Filter(products, MatchesQuery(query))
  }

  /** A product is listed by a search exactly when the lower-cased query occurs in its lower-cased name. */
  lemma SearchFindsSubstrings(products: seq<Product>, query: string, p: Product)
    ensures p in Search(products, query) <==> p in products && Occurs(Lower(query), Lower(p.name))
  {
    ContainsOccurs(Lower(p.name), Lower(query));
  }

  /** Search keeps the catalogue's order: it distributes over concatenation. */
  lemma SearchKeepsOrder(a: seq<Product>, b: seq<Product>, query: string)
    ensures Search(a + b, query) == Search(a, query) + Search(b, query)
  {
    if query != "" {
      FilterAppend(a, b, MatchesQuery(query));
    }
  }

  function OtherThan(id: ProductId): Product -> bool
  {
    (p: Product) => p.id != id
  }

  /** The recommendations beside a product page: every product except the one shown. */
  function Recommendations(products: seq<Product>, id: ProductId): (r: seq<Product>)
    ensures forall p :: p in r <==> p in products && p.id != id
  {
    Filter(products, OtherThan(id))
  }

  /** Recommendations keep the catalogue's order. */
  lemma RecommendationsKeepOrder(a: seq<Product>, b: seq<Product>, id: ProductId)
    ensures Recommendations(a + b, id) == Recommendations(a, id) + Recommendations(b, id)
  {
    FilterAppend(a, b, OtherThan(id));
  }
}
