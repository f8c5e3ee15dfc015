/**
 * The three services share one Redis instance. Every key a product, category
 * or review handler reads, writes or deletes belongs to its own service:
 * the first character tells categories ('c') from reviews' own rows ('r')
 * and from the product keys ('p'), and index 7 tells the product keys
 * (':' or 's') from `product reviews:{productId}` (' ').
 */
module Keyspace {
  import Products
  import Categories
  import Reviews

  /** No key of one service is ever a key of another. */
  lemma ServiceKeysDisjoint(productId: string, q: Products.ProductQuery, categoryId: string, reviewId: string, reviewedProduct: string)
    ensures var productKeys := [Products.ProductKey(productId), Products.ListKey(q), Products.CreateEvicts, Products.WriteEvicts];
            var categoryKeys := [Categories.CategoryKey(categoryId), Categories.ListKey];
            var reviewKeys := [Reviews.ReviewKey(reviewId), Reviews.ListKey(reviewedProduct)];
            (forall i, j :: 0 <= i < |productKeys| && 0 <= j < |categoryKeys| ==> productKeys[i] != categoryKeys[j]) &&
            (forall i, j :: 0 <= i < |productKeys| && 0 <= j < |reviewKeys| ==> productKeys[i] != reviewKeys[j]) &&
            (forall i, j :: 0 <= i < |categoryKeys| && 0 <= j < |reviewKeys| ==> categoryKeys[i] != reviewKeys[j])
  {
    var productKeys := [Products.ProductKey(productId), Products.ListKey(q), Products.CreateEvicts, Products.WriteEvicts];
    var categoryKeys := [Categories.CategoryKey(categoryId), Categories.ListKey];
    var reviewKeys := [Reviews.ReviewKey(reviewId), Reviews.ListKey(reviewedProduct)];
    var listKey := Products.ListKey(q);
    assert listKey[..9] == Products.ListPrefix;
    assert listKey[0] == 'p' && listKey[1] == 'r' && listKey[7] == 's';
    assert Products.ProductKey(productId)[..8] == "product:";
    assert Reviews.ListKey(reviewedProduct)[..16] == "product reviews:";
    assert Categories.CategoryKey(categoryId)[..9] == "category:";
    // Every product key starts with "pr" and has ':' or 's' at index 7.
    forall i | 0 <= i < |productKeys|
      ensures |productKeys[i]| >= 8 && productKeys[i][0] == 'p' && productKeys[i][1] == 'r'
      ensures productKeys[i][7] == ':' || productKeys[i][7] == 's'
    {
    }
    // Every category key starts with "ca".
    forall j | 0 <= j < |categoryKeys|
      ensures |categoryKeys[j]| >= 2 && categoryKeys[j][0] == 'c' && categoryKeys[j][1] == 'a'
    {
    }
  }
}
