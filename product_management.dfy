/** The product administration page (`src/pages/ProductManagement.tsx`):
    its access gate, the form state, and the add, edit and delete handlers,
    which call into the product directory. */
module ProductManagement {
  import opened Base
  import opened Strings
  import opened Types
  import opened Slug
  import opened ProductForm
  import opened ProductContext
  import Layout

  /** Only admins get the page; everyone else sees 'Access Denied'. The
      page is shown exactly to the users whose top navigation links to it. */
  predicate ShowsManagement(user: Option<User>)
    ensures ShowsManagement(user) <==> Layout.Page.Products in Layout.Names(Layout.AdminNavigation(user))
  {
    user.Some? && user.value.role == Admin
  }

  /** The domain field is shown exactly for the forms whose domains the
      save keeps. */
  lemma DomainFieldShownIffKept(f: ProductFields)
    ensures ShowsDomainField(f.accessType) <==> KeptDomains(f).Some?
    ensures ShowsDomainField(f.accessType) ==> KeptDomains(f) == Some(f.allowedDomains)
  {
  }

  /** `slug.trim() || generateSlug(name.trim())`. */
  function ChosenSlug(slug: string, name: string): (r: string)
    ensures r != []
    ensures !IsBlank(slug) ==> r == Trim(slug)
    ensures IsBlank(slug) ==> r == SlugOf(Trim(name)) && WellFormedSlug(r)
  {
    if !IsBlank(slug) then Trim(slug)
    else
      SlugOfWellFormed(Trim(name));
      SlugOf(Trim(name))
  }

  /** `accessType === 'private' ? allowedDomains : undefined`. */
  function KeptDomains(f: ProductFields): (r: Option<seq<string>>)
    ensures r.Some? <==> f.accessType == Private
    ensures r.Some? ==> r.value == f.allowedDomains
  {
    if f.accessType == Private then Some(f.allowedDomains) else None
  }

  /** The product `handleAddProduct` stores. */
  function AddedProduct(id: string, teamId: string, f: ProductFields): (p: Product)
    ensures p.id == id && p.teamId == teamId && p.defaultTemplateId == None
    ensures p.name == Trim(f.name) && p.description == Trim(f.description)
    ensures p.accessType == f.accessType && p.allowedDomains == KeptDomains(f)
    ensures p.slug == ChosenSlug(f.slug, f.name) && p.slug != []
  {
    Product(id, Trim(f.name), Trim(f.description), teamId, f.accessType, None,
            KeptDomains(f), ChosenSlug(f.slug, f.name))
  }

  /** The product `handleEditProduct` stores: the edited product with name,
      description, access type, domains and slug taken from the form. */
  function EditedProduct(e: Product, f: ProductFields): Product {
    e.(name := Trim(f.name), description := Trim(f.description), accessType := f.accessType,
       allowedDomains := KeptDomains(f), slug := ChosenSlug(f.slug, f.name))
  }

  /** Editing keeps id, team and default template, and otherwise yields the
      record adding the same form would. */
  lemma EditedLikeAdded(e: Product, f: ProductFields)
    ensures EditedProduct(e, f).id == e.id && EditedProduct(e, f).teamId == e.teamId
    ensures EditedProduct(e, f).defaultTemplateId == e.defaultTemplateId
    ensures EditedProduct(e, f) == AddedProduct(e.id, e.teamId, f).(defaultTemplateId := e.defaultTemplateId)
  {
  }

  /** `product_${Date.now()}`. */
  function ProductId(now: int): string {
    "product_" + IntToString(now)
  }

  /** `slug.trim() || generateSlug(name.trim())`, running the slug loop. */
  method PickSlug(f: ProductFields) returns (slug: string)
    ensures slug == ChosenSlug(f.slug, f.name)
  {
    slug := Trim(f.slug);
    if slug == [] {
      slug := GenerateSlug(Trim(f.name));
    }
  }

  /** The record literal of `handleAddProduct`. */
  method MakeProduct(id: string, teamId: string, f: ProductFields) returns (p: Product)
    ensures p == AddedProduct(id, teamId, f)
  {
    var slug := PickSlug(f);
    p := Product(id, Trim(f.name), Trim(f.description), teamId, f.accessType, None,
                 KeptDomains(f), slug);
  }

  /** The spread of `handleEditProduct`. */
  method MakeEdited(e: Product, f: ProductFields) returns (q: Product)
    ensures q == EditedProduct(e, f)
  {
    var slug := PickSlug(f);
    q := e.(name := Trim(f.name), description := Trim(f.description),
            accessType := f.accessType, allowedDomains := KeptDomains(f), slug := slug);
  }

  /** The page's state. */
  class ProductManagementPage {
    const user: Option<User>
    const dir: ProductDirectory
    var fields: ProductFields
    var editingProduct: Option<Product>
    var error: string
    var showAddModal: bool
    var showEditModal: bool
    var showDeleteModal: bool

    constructor(user: Option<User>, dir: ProductDirectory)
      ensures this.user == user && this.dir == dir
      ensures fields == EmptyFields && editingProduct == None && error == ""
      ensures !showAddModal && !showEditModal && !showDeleteModal
    {
      this.user := user;
      this.dir := dir;
      fields := EmptyFields;
      editingProduct := None;
      error := "";
      showAddModal := false;
      showEditModal := false;
      showDeleteModal := false;
    }

    /** `teamProducts`: the grid lists the products of the admin's team. */
    function TeamGrid(): (r: seq<Product>)
      reads this, dir
      ensures forall p :: p in r <==> p in dir.products && InUserTeam(user, p)
    {
      TeamProducts(user, dir.products)
    }

    method ResetForm()
      modifies this
      ensures fields == EmptyFields && editingProduct == None && error == ""
      ensures showAddModal == old(showAddModal) && showEditModal == old(showEditModal)
      ensures showDeleteModal == old(showDeleteModal)
    {
      fields := EmptyFields;
      editingProduct := None;
      error := "";
    }

    /** A blank name is refused with 'Product name is required' and no product
        changes; otherwise the new product is appended and the form closes. */
    method HandleAddProduct(now: int)
      requires ShowsManagement(user)
      modifies this, dir
      ensures IsBlank(old(fields.name)) ==>
                error == "Product name is required" && fields == old(fields)
                && editingProduct == old(editingProduct) && showAddModal == old(showAddModal)
                && dir.products == old(dir.products)
      ensures !IsBlank(old(fields.name)) ==>
                dir.products == old(dir.products)
                                + [AddedProduct(ProductId(now), user.value.teamId, old(fields))]
                && !showAddModal && fields == EmptyFields && editingProduct == None && error == ""
      ensures dir.selected == old(dir.selected) && dir.user == old(dir.user)
      ensures dir.showProductNav == old(dir.showProductNav)
      ensures showEditModal == old(showEditModal) && showDeleteModal == old(showDeleteModal)
    {
      if Trim(fields.name) == [] {
        error := "Product name is required";
        return;
      }
      var p := MakeProduct(ProductId(now), user.value.teamId, fields);
      dir.AddProduct(p);
      showAddModal := false;
      ResetForm();
    }

    /** Without a product being edited, or with a blank name, nothing is
        stored and the error is set; otherwise every product with the edited
        id is replaced. */
    method HandleEditProduct()
      requires ShowsManagement(user)
      modifies this, dir
      ensures old(editingProduct).None? || IsBlank(old(fields.name)) ==>
                error == "Product name is required" && fields == old(fields)
                && editingProduct == old(editingProduct) && showEditModal == old(showEditModal)
                && dir.products == old(dir.products)
      ensures old(editingProduct).Some? && !IsBlank(old(fields.name)) ==>
                dir.products == ReplaceById(old(dir.products),
                                            EditedProduct(old(editingProduct).value, old(fields)))
                && !showEditModal && fields == EmptyFields && editingProduct == None && error == ""
      ensures dir.selected == old(dir.selected) && dir.user == old(dir.user)
      ensures dir.showProductNav == old(dir.showProductNav)
      ensures showAddModal == old(showAddModal) && showDeleteModal == old(showDeleteModal)
    {
      if editingProduct.None? || Trim(fields.name) == [] {
        error := "Product name is required";
        return;
      }
      var q := MakeEdited(editingProduct.value, fields);
      dir.UpdateProduct(q);
      showEditModal := false;
      ResetForm();
    }

    /** Deleting requires a product being edited; the directory removes it and
        moves the selection if it was selected. */
    method HandleDeleteProduct()
      requires ShowsManagement(user)
      modifies this, dir
      ensures old(editingProduct).None? ==>
                fields == old(fields) && editingProduct == None && error == old(error)
                && showDeleteModal == old(showDeleteModal)
                && dir.products == old(dir.products) && dir.selected == old(dir.selected)
      ensures old(editingProduct).Some? ==>
                var id := old(editingProduct).value.id;
                dir.products == WithoutId(old(dir.products), id)
                && dir.selected == (if old(dir.selected).Some? && old(dir.selected).value.id == id
                                    then DeleteFallback(dir.user, old(dir.products), id)
                                    else old(dir.selected))
                && !showDeleteModal && fields == EmptyFields && editingProduct == None && error == ""
      ensures dir.user == old(dir.user) && dir.showProductNav == old(dir.showProductNav)
      ensures showAddModal == old(showAddModal) && showEditModal == old(showEditModal)
    {
      if editingProduct.None? {
        return;
      }
      dir.DeleteProduct(editingProduct.value.id);
      showDeleteModal := false;
      ResetForm();
    }
  }
}
