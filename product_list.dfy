/**
 * The admin product table (`src/components/admin/ProductList.tsx`): the search
 * over name, category and id, and the two-step delete.
 */
module ProductList {
  import opened Wrappers
  import opened Catalog
  import Seqs
  import Text

  /** The lowercased term inside the lowercased name, category or id. */
  predicate Matches(p: Product, term: string) {
    var t := Text.Lower(term);
    Text.Contains(Text.Lower(p.name), t) ||
    Text.Contains(Text.Lower(p.category), t) ||
    Text.Contains(Text.Lower(p.id), t)
  }

  function Match(term: string): Product -> bool {
    (p: Product) => Matches(p, term)
  }

  /** `filteredProducts`. */
  function Filtered(products: seq<Product>, term: string): seq<Product> {
    Seqs.Filter(products, Match(term))
  }

  /** A product is listed exactly when it matches, and the list keeps the given order. */
  lemma FilteredFacts(products: seq<Product>, term: string, p: Product)
    ensures p in Filtered(products, term) <==> p in products && Matches(p, term)
    ensures Seqs.IsSubsequence(Filtered(products, term), products)
  {
    Seqs.FilterMembership(products, Match(term), p);
    Seqs.FilterIsSubsequence(products, Match(term));
  }

  /** An empty search lists every product. */
  lemma EmptySearchListsAll(products: seq<Product>)
    ensures Filtered(products, "") == products
  {
    forall i | 0 <= i < |products| ensures Matches(products[i], "") {
      Text.ContainsEmpty(Text.Lower(products[i].name));
    }
    Seqs.FilterAll(products, Match(""));
  }

  /** An id typed in full, in any ASCII case, finds that product. */
  lemma IdFindsProduct(products: seq<Product>, p: Product)
    requires p in products
    ensures p in Filtered(products, Text.Upper(p.id))
  {
    var t := Text.Lower(Text.Upper(p.id));
    assert t == Text.Lower(p.id) by {
      forall i | 0 <= i < |p.id| ensures t[i] == Text.Lower(p.id)[i] {
        assert Text.LowerChar(Text.UpperChar(p.id[i])) == Text.LowerChar(p.id[i]);
      }
    }
    assert Text.OccursAt(Text.Lower(p.id), t, 0);
    Seqs.FilterMembership(products, Match(Text.Upper(p.id)), p);
  }

  class ProductTable {
    var searchTerm: string
    var deleteConfirmId: Option<string>
    var isDeleting: bool

    constructor()
      ensures searchTerm == "" && deleteConfirmId.None? && !isDeleting
    {
      searchTerm := "";
      deleteConfirmId := None;
      isDeleting := false;
    }

    /** `handleDeleteClick`: the dialog asks about this product. */
    method DeleteClick(id: string)
      modifies this
      ensures deleteConfirmId == Some(id)
      ensures searchTerm == old(searchTerm) && isDeleting == old(isDeleting)
    {
      deleteConfirmId := Some(id);
    }

    /**
     * `confirmDelete`: `onDelete(id)` is called (returned here as the id
     * requested) and, whether it resolves or throws (an error is only
     * logged), the dialog closes.
     */
    method ConfirmDelete(id: string) returns (requested: string)
      modifies this
      ensures requested == id
      ensures !isDeleting && deleteConfirmId.None?
      ensures searchTerm == old(searchTerm)
    {
      isDeleting := true;
      requested := id;
      isDeleting := false;
      deleteConfirmId := None;
    }

    /** `cancelDelete`: the dialog closes and nothing is deleted. */
    method CancelDelete()
      modifies this
      ensures deleteConfirmId.None?
      ensures searchTerm == old(searchTerm) && isDeleting == old(isDeleting)
    {
      deleteConfirmId := None;
    }
  }
}
