/** The category dialogs (`src/components/categories/CategoryModals.tsx`):
    their titles, the empty-products message, and the product checkboxes,
    whose changes go back to the page as a new list of product ids. */
module CategoryModals {
  import opened Seqs
  import opened Types

  /** The add/edit dialog's title. */
  function AddEditTitle(isEdit: bool): (r: string)
    ensures isEdit ==> r == "Edit Category"
    ensures !isEdit ==> r == "Add Category"
  {
    (if isEdit then "Edit" else "Add") + " Category"
  }

  /** The assignment dialog's title names the category. */
  function AssignTitle(categoryName: string): (r: string)
    ensures |r| == 19 + |categoryName| && r[19..] == categoryName
    ensures r[..19] == "Assign Products to "
  {
    "Assign Products to " + categoryName
  }

  /** With no products to offer, the add/edit dialog says so instead of
      listing checkboxes. */
  predicate ShowsNoProductsMessage(products: seq<Product>)
    ensures ShowsNoProductsMessage(products) <==> forall p :: p !in products
  {
    assert |products| > 0 ==> products[0] in products;
    |products| == 0
  }

  /** `selectedProducts.includes(product.id)`: the box is ticked when the
      id occurs anywhere in the selection, however often. */
  predicate ProductChecked(selected: seq<string>, productId: string)
    ensures ProductChecked(selected, productId) <==> multiset(selected)[productId] > 0
  {
    productId in selected
  }

  /** A product checkbox change: ticking appends the id, unticking removes
      every occurrence; the box then shows the new state and every other
      product's box is unchanged. */
  function ToggledProduct(selected: seq<string>, productId: string, checked: bool): (r: seq<string>)
    ensures ProductChecked(r, productId) == checked
    ensures forall id :: id != productId ==> ProductChecked(r, id) == ProductChecked(selected, id)
    ensures checked ==> r == selected + [productId]
    ensures !checked ==> r == Without(selected, productId)
  {
    SetMembership(selected, productId, checked)
  }

  /** Unticking works element by element, so the other ids keep their order. */
  lemma UntickKeepsOrder(a: seq<string>, b: seq<string>, productId: string)
    ensures ToggledProduct(a + b, productId, false)
            == ToggledProduct(a, productId, false) + ToggledProduct(b, productId, false)
  {
    WithoutConcat(a, b, productId);
  }
}
