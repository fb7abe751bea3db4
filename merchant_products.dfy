/** `MerchantProductsPage`: the product list with conjunctive search, category and status
    filters, and the text of its empty state. */
module MerchantProducts {
  import opened Wrappers
  import opened Text
  import opened Seqs
  import opened Types
  import opened Listing

  /** Name or description contains the term, ignoring case. */
  predicate MatchesSearch(p: Product, searchTerm: string) {
    IncludesIgnoringCase(p.name, searchTerm) || IncludesIgnoringCase(p.description, searchTerm)
  }

  /** `!filterCategory || product.category === filterCategory` */
  predicate MatchesCategory(p: Product, filterCategory: string) {
    filterCategory == "" || p.category == filterCategory
  }

  /** The predicate passed to `products.filter`. */
  function KeepProduct(searchTerm: string, filterCategory: string, filterStatus: string): Product -> bool {
    p => MatchesSearch(p, searchTerm) && MatchesCategory(p, filterCategory) && StatusAdmits(filterStatus, p.isActive)
  }

  /** `filteredProducts`: the products, in their order, that pass all three filters. */
  function FilteredProducts(products: seq<Product>, searchTerm: string, filterCategory: string,
                            filterStatus: string): (r: seq<Product>)
    ensures IsSubsequence(r, products)
    ensures forall p :: p in r <==> p in products && MatchesSearch(p, searchTerm)
                                    && MatchesCategory(p, filterCategory) && StatusAdmits(filterStatus, p.isActive)
  {
    var keep := KeepProduct(searchTerm, filterCategory, filterStatus);
    FilterIsSubsequence(products, keep);
    forall p ensures p in Filter(products, keep) <==> p in products && keep(p) {
      FilterMembership(products, keep, p);
    }
    Filter(products, keep)
  }

  /** With no filter set, every product is listed, in order. */
  lemma NoFilterKeepsAll(products: seq<Product>)
    ensures FilteredProducts(products, "", "", "all") == products
  {
    forall i | 0 <= i < |products| ensures KeepProduct("", "", "all")(products[i]) {
      EmptyIsIncluded(products[i].name);
    }
    FilterKeepsAll(products, KeepProduct("", "", "all"));
  }

  /** Choosing a category keeps a subsequence of what "all categories" keeps: the filters are
      conjunctive, so setting one never enlarges the result. */
  lemma CategoryNarrows(products: seq<Product>, searchTerm: string, filterCategory: string, filterStatus: string)
    ensures IsSubsequence(FilteredProducts(products, searchTerm, filterCategory, filterStatus),
                          FilteredProducts(products, searchTerm, "", filterStatus))
    ensures |FilteredProducts(products, searchTerm, filterCategory, filterStatus)|
            <= |FilteredProducts(products, searchTerm, "", filterStatus)|
  {
    FilterMonotone(products, KeepProduct(searchTerm, filterCategory, filterStatus), KeepProduct(searchTerm, "", filterStatus));
  }

  /** Likewise a status choice keeps a subsequence of "all". */
  lemma StatusNarrows(products: seq<Product>, searchTerm: string, filterCategory: string, filterStatus: string)
    ensures IsSubsequence(FilteredProducts(products, searchTerm, filterCategory, filterStatus),
                          FilteredProducts(products, searchTerm, filterCategory, "all"))
  {
    FilterMonotone(products, KeepProduct(searchTerm, filterCategory, filterStatus), KeepProduct(searchTerm, filterCategory, "all"));
  }

  /** For fixed search and category, "active" and "inactive" split the "all" result. */
  lemma ActiveInactivePartition(products: seq<Product>, searchTerm: string, filterCategory: string)
    ensures |FilteredProducts(products, searchTerm, filterCategory, "active")|
            + |FilteredProducts(products, searchTerm, filterCategory, "inactive")|
            == |FilteredProducts(products, searchTerm, filterCategory, "all")|
  {
    FilterSplit(products, KeepProduct(searchTerm, filterCategory, "active"),
                KeepProduct(searchTerm, filterCategory, "inactive"), KeepProduct(searchTerm, filterCategory, "all"));
  }

  datatype EmptyHint = AdjustFilters | AddFirst

  /** The text under "Nenhum produto encontrado"; the "Adicionar Produto" button goes with `AddFirst`. */
  function EmptyHintOf(searchTerm: string, filterCategory: string, filterStatus: string): (h: EmptyHint)
    ensures h == AdjustFilters <==> searchTerm != "" || filterCategory != "" || filterStatus != "all"
  {
    if searchTerm != "" || filterCategory != "" || filterStatus != "all" then AdjustFilters else AddFirst
  }

  /** The "add your first product" hint can only show over an empty product list. */
  lemma AddFirstMeansNoProducts(products: seq<Product>, searchTerm: string, filterCategory: string, filterStatus: string)
    requires FilteredProducts(products, searchTerm, filterCategory, filterStatus) == []
    requires EmptyHintOf(searchTerm, filterCategory, filterStatus) == AddFirst
    ensures products == []
  {
    NoFilterKeepsAll(products);
  }
}
