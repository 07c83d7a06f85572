/** The consumer view (src/pages/Consumer.tsx): the product search, the
    favourites toggle, the feedback of a product, and the page state those
    handlers update. */
module Consumer {
  import opened Wrappers
  import opened Types
  import opened Seqs
  import Text
  import Directory

  /** A product matches when its lowercased name or type contains the
      lowercased search term (`Text.IncludesIff`: the term occurs at some
      position). */
  predicate Matches(p: Product, term: string)
  {
    Text.Includes(Text.ToLower(p.name), Text.ToLower(term)) ||
    Text.Includes(Text.ToLower(p.productType), Text.ToLower(term))
  }

  /** `filteredProducts`. */
  function FilteredProducts(ps: seq<Product>, term: string): (r: seq<Product>)
    ensures forall p :: p in r <==> p in ps && Matches(p, term)
    ensures forall p :: multiset(r)[p] == if Matches(p, term) then multiset(ps)[p] else 0
  {
    forall p ensures p in Filter(ps, (q: Product) => Matches(q, term)) <==> p in ps && Matches(p, term) {
      FilterMembership(ps, (q: Product) => Matches(q, term), p);
    }
    forall p ensures multiset(Filter(ps, (q: Product) => Matches(q, term)))[p] ==
      if Matches(p, term) then multiset(ps)[p] else 0
    {
      FilterMultiplicity(ps, (q: Product) => Matches(q, term), p);
    }
    Filter(ps, (q: Product) => Matches(q, term))
  }

  /** The search keeps the products' order. */
  lemma FilteredProductsOrder(ps: seq<Product>, term: string)
    ensures IsSubsequence(FilteredProducts(ps, term), ps)
  {
    FilterIsSubsequence(ps, (q: Product) => Matches(q, term));
  }

  /** An empty search term keeps every product. */
  lemma EmptySearchKeepsAll(ps: seq<Product>)
    ensures FilteredProducts(ps, "") == ps
  {
    forall i | 0 <= i < |ps| ensures Matches(ps[i], "") {
      Text.IncludesEmpty(Text.ToLower(ps[i].name));
    }
    FilterAll(ps, (q: Product) => Matches(q, ""));
  }

  /** The new favourites list of `toggleFavorite`: every occurrence of a
      present id is removed, an absent id is appended. */
  function Toggled(favorites: seq<string>, id: string): (r: seq<string>)
    ensures id in r <==> id !in favorites
    ensures forall x :: x != id ==> (x in r <==> x in favorites)
    ensures id !in favorites ==> r == favorites + [id]
    ensures id in favorites ==> forall x :: multiset(r)[x] == if x == id then 0 else multiset(favorites)[x]
  {
    if id in favorites then
      var r := Filter(favorites, (x: string) => x != id);
      forall x ensures x in r <==> x in favorites && x != id {
        FilterMembership(favorites, (y: string) => y != id, x);
      }
      forall x ensures multiset(r)[x] == if x == id then 0 else multiset(favorites)[x] {
        FilterMultiplicity(favorites, (y: string) => y != id, x);
      }
      r
    else favorites + [id]
  }

  /** Adding an absent id and toggling it again restores the list. */
  lemma ToggleTwice(favorites: seq<string>, id: string)
    requires id !in favorites
    ensures Toggled(Toggled(favorites, id), id) == favorites
  {
    FilterConcat(favorites, [id], (x: string) => x != id);
    FilterAll(favorites, (x: string) => x != id);
  }

  /** Removing a present id keeps the order of the others. */
  lemma ToggleRemoveOrder(favorites: seq<string>, id: string)
    requires id in favorites
    ensures IsSubsequence(Toggled(favorites, id), favorites)
  {
    FilterIsSubsequence(favorites, (x: string) => x != id);
  }

  /** `getProductFeedback`: the feedback about one product, in order. */
  function ProductFeedback(fs: seq<FeedbackEvent>, productId: string): (r: seq<FeedbackEvent>)
    ensures forall f :: f in r <==> f in fs && f.productId == productId
    ensures forall f :: multiset(r)[f] == if f.productId == productId then multiset(fs)[f] else 0
  {
    forall f ensures f in Filter(fs, (g: FeedbackEvent) => g.productId == productId) <==> f in fs && f.productId == productId {
      FilterMembership(fs, (g: FeedbackEvent) => g.productId == productId, f);
    }
    forall f ensures multiset(Filter(fs, (g: FeedbackEvent) => g.productId == productId))[f] ==
      if f.productId == productId then multiset(fs)[f] else 0
    {
      FilterMultiplicity(fs, (g: FeedbackEvent) => g.productId == productId, f);
    }
    Filter(fs, (g: FeedbackEvent) => g.productId == productId)
  }

  lemma ProductFeedbackOrder(fs: seq<FeedbackEvent>, productId: string)
    ensures IsSubsequence(ProductFeedback(fs, productId), fs)
  {
    FilterIsSubsequence(fs, (g: FeedbackEvent) => g.productId == productId);
  }

  /** The page's state slots: search term, selected product, the feedback
      text being written, the chosen star rating and the favourite ids. */
  class ConsumerPage {
    var searchTerm: string
    var selectedProduct: Option<Product>
    var feedback: string
    var rating: int
    var favorites: seq<string>

    /** The rating is always one of the five stars. */
    predicate Valid()
      reads this
    {
      1 <= rating <= 5
    }

    constructor ()
      ensures Valid()
      ensures searchTerm == "" && selectedProduct == None && feedback == "" && rating == 5 && favorites == []
    {
      searchTerm := "";
      selectedProduct := None;
      feedback := "";
      rating := 5;
      favorites := [];
    }

    /** The products the page lists for the current search term. */
    function Products(): seq<Product>
      reads this
    {
      FilteredProducts(Directory.MockProducts, searchTerm)
    }

    method SetSearchTerm(term: string)
      modifies this
      ensures searchTerm == term
      ensures selectedProduct == old(selectedProduct) && feedback == old(feedback)
      ensures rating == old(rating) && favorites == old(favorites)
    {
      searchTerm := term;
    }

    method SelectProduct(p: Product)
      modifies this
      ensures selectedProduct == Some(p)
      ensures searchTerm == old(searchTerm) && feedback == old(feedback)
      ensures rating == old(rating) && favorites == old(favorites)
    {
      selectedProduct := Some(p);
    }

    /** The detail view's back button: the selection is cleared. */
    method ClearSelection()
      modifies this
      ensures selectedProduct == None
      ensures searchTerm == old(searchTerm) && feedback == old(feedback)
      ensures rating == old(rating) && favorites == old(favorites)
    {
      selectedProduct := None;
    }

    method SetFeedback(text: string)
      modifies this
      ensures feedback == text
      ensures searchTerm == old(searchTerm) && selectedProduct == old(selectedProduct)
      ensures rating == old(rating) && favorites == old(favorites)
    {
      feedback := text;
    }

    /** Star button `i` (0 to 4, the only buttons rendered) sets the rating
      to `i + 1`. */
    method SetRating(i: int)
      requires Valid() && 0 <= i < 5
      modifies this
      ensures Valid() && rating == i + 1
      ensures searchTerm == old(searchTerm) && selectedProduct == old(selectedProduct)
      ensures feedback == old(feedback) && favorites == old(favorites)
    {
      rating := i + 1;
    }

    /** `handleSubmitFeedback`: without a selected product nothing happens;
        otherwise the feedback text is cleared (the submission itself is
        only a notification). */
    method SubmitFeedback()
      modifies this
      ensures feedback == (if old(selectedProduct).None? then old(feedback) else "")
      ensures searchTerm == old(searchTerm) && selectedProduct == old(selectedProduct)
      ensures rating == old(rating) && favorites == old(favorites)
    {
      if selectedProduct.None? {
        return;
      }
      feedback := "";
    }

    /** `toggleFavorite`: the list is replaced by its toggled form; the
        returned word is the notification's "removed from" / "added to". */
    method ToggleFavorite(id: string) returns (action: string)
      modifies this
      ensures favorites == Toggled(old(favorites), id)
      ensures action == (if id in old(favorites) then "removed from" else "added to")
      ensures searchTerm == old(searchTerm) && selectedProduct == old(selectedProduct)
      ensures feedback == old(feedback) && rating == old(rating)
    {
      action := if id in favorites then "removed from" else "added to";
      favorites := Toggled(favorites, id);
    }
  }

  /** Prod-001 has the single seeded review. */
  lemma SeedFeedback()
    ensures ProductFeedback(Directory.MockFeedback, "prod-001") == Directory.MockFeedback
    ensures ProductFeedback(Directory.MockFeedback, "prod-002") == []
  {
  }
}
