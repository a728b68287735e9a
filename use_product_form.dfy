/** The product form hook (`src/hooks/useProductForm.ts`): form state seeded
    from an optional product, and its reset. Its `generateSlug` has the same
    text as the product page's and is `Slug.GenerateSlug`. */
module UseProductForm {
  import opened Base
  import opened Types
  import opened ProductForm

  /** The first state of the hook: the product's values, or the empty form's
      defaults ('' / 'public' / []) for whatever is missing. */
  function InitialFields(initial: Option<Product>): (f: ProductFields)
    ensures initial.None? ==> f == EmptyFields
    ensures initial.Some? ==>
              f.name == initial.value.name && f.description == initial.value.description
              && f.accessType == initial.value.accessType && f.slug == initial.value.slug
              && f.allowedDomains == initial.value.allowedDomains.GetOr([])
  {
    match initial
    case None => EmptyFields
    case Some(p) => ProductFields(p.name, p.description, p.accessType,
                                  p.allowedDomains.GetOr([]), p.slug)
  }

  class ProductFormState {
    var fields: ProductFields
    var error: string

    constructor(initial: Option<Product>)
      ensures fields == InitialFields(initial) && error == ""
    {
      fields := InitialFields(initial);
      error := "";
    }

    /** Back to the state of a form opened without a product. */
    method ResetForm()
      modifies this
      ensures fields == InitialFields(None) && fields == EmptyFields && error == ""
    {
      fields := EmptyFields;
      error := "";
    }
  }
}
