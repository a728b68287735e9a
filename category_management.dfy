/** The ticket category administration page (`src/pages/CategoryManagement.tsx`):
    the default categories seeded into an empty store, the access gate, and
    the add, edit, delete, duplicate, enable-toggle and product-assignment
    handlers over the stored category list. */
module CategoryManagement {
  import opened Base
  import opened Seqs
  import opened Strings
  import opened Types
  import ProductContext
  import Layout

  /** `getDefaultCategories(teamId)`. */
  function DefaultCategories(teamId: string): (r: seq<Category>)
    ensures |r| == 3
    ensures r[0].id == "billing" && r[0].name == "Billing Issue"
    ensures r[1].id == "general" && r[1].name == "General Question"
    ensures r[2].id == "technical" && r[2].name == "Technical Question"
    ensures forall i :: 0 <= i < 3 ==>
              r[i].teamId == teamId && r[i].productIds == Some([])
              && r[i].isDefault == Some(true) && r[i].isEnabled
  {
    [Category("billing", "Billing Issue", teamId, Some([]), Some(true), true),
     Category("general", "General Question", teamId, Some([]), Some(true), true),
     Category("technical", "Technical Question", teamId, Some([]), Some(true), true)]
  }

  /** The seeding effect: the defaults replace the list only when it is empty. */
  function Seeded(cs: seq<Category>, teamId: string): (r: seq<Category>)
    ensures cs == [] ==> r == DefaultCategories(teamId)
    ensures cs != [] ==> r == cs
  {
    if |cs| == 0 then DefaultCategories(teamId) else cs
  }

  /** `cat => cat.teamId === teamId`. */
  function InTeam(teamId: string): Category -> bool {
    (c: Category) => c.teamId == teamId
  }

  /** `teamCategories`: the table lists the categories of the user's team. */
  function TeamCategories(teamId: string, cs: seq<Category>): (r: seq<Category>)
    ensures forall c :: c in r <==> c in cs && c.teamId == teamId
  {
    Filter(cs, InTeam(teamId))
  }

  /** Seeding looks at the whole store, not the team: a store holding only
      other teams' categories is left alone, so this team's table stays empty. */
  lemma SeedingIsNotPerTeam(cs: seq<Category>, teamId: string)
    requires cs != [] && forall i :: 0 <= i < |cs| ==> cs[i].teamId != teamId
    ensures TeamCategories(teamId, Seeded(cs, teamId)) == []
  {
    FilterNoneEmpty(cs, InTeam(teamId));
  }

  /** On an empty store the team sees the three defaults. */
  lemma SeededTeamSeesDefaults(teamId: string)
    ensures TeamCategories(teamId, Seeded([], teamId)) == DefaultCategories(teamId)
  {
    var d := DefaultCategories(teamId);
    FilterAll(d, InTeam(teamId));
  }

  /** Only admins get the page; everyone else sees 'Access Denied'. These
      are the users the page shell marks as admins. */
  predicate ShowsCategories(user: User)
    ensures ShowsCategories(user) <==> Layout.IsAdmin(Some(user))
  {
    user.role == Admin
  }

  /** The page is shown exactly to the users whose product navigation links
      to it. */
  lemma ShowsCategoriesIffLinked(user: User)
    ensures ShowsCategories(user) <==> Layout.Page.Categories in Layout.Names(Layout.ProductNavigation(Some(user)))
  {
    Layout.ProductNavigationByRole(Some(user));
  }

  /** `accessibleProducts`, the rule of the product provider. */
  function AccessibleProducts(user: User, ps: seq<Product>): (r: seq<Product>)
    ensures forall p :: p in r <==> p in ps && ProductContext.CanAccess(Some(user), p)
  {
    ProductContext.AccessibleProducts(Some(user), ps)
  }

  /** An admin, the only user who gets the page, is offered the team's products. */
  lemma AdminOfferedTeamProducts(user: User, ps: seq<Product>)
    requires ShowsCategories(user)
    ensures AccessibleProducts(user, ps) == ProductContext.TeamProducts(Some(user), ps)
  {
    ProductContext.AdminAccessibleIsTeam(Some(user), ps);
  }

  /** `cat_${Date.now()}`. */
  function CategoryId(now: int): string {
    "cat_" + IntToString(now)
  }

  /** The category `handleAddCategory` appends: enabled, of the user's team,
      with the chosen products and no default flag. */
  function AddedCategory(id: string, teamId: string, name: string, productIds: seq<string>): (c: Category)
    ensures c.id == id && c.teamId == teamId && c.name == Trim(name)
    ensures c.productIds == Some(productIds) && c.isEnabled && c.isDefault == None
  {
    Category(id, Trim(name), teamId, Some(productIds), None, true)
  }

  /** The record literal of `handleAddCategory`. */
  method MakeCategory(id: string, teamId: string, name: string, productIds: seq<string>)
    returns (c: Category)
    ensures c == AddedCategory(id, teamId, name, productIds)
  {
    c := Category(id, Trim(name), teamId, Some(productIds), None, true);
  }

  /** `categories.map(cat => cat.id === id ? f(cat) : cat)`. */
  function MapWhere(cs: seq<Category>, id: string, f: Category -> Category): (r: seq<Category>)
    ensures |r| == |cs|
    ensures forall i :: 0 <= i < |cs| ==> r[i] == if cs[i].id == id then f(cs[i]) else cs[i]
  {
    if cs == [] then [] else [if cs[0].id == id then f(cs[0]) else cs[0]] + MapWhere(cs[1..], id, f)
  }

  /** The spread of `handleEditCategory`: trimmed name and the chosen products. */
  function EditCategory(c: Category, name: string, productIds: seq<string>): (r: Category)
    ensures r.id == c.id && r.teamId == c.teamId && r.isDefault == c.isDefault
    ensures r.isEnabled == c.isEnabled
    ensures r.name == Trim(name) && r.productIds == Some(productIds)
  {
    c.(name := Trim(name), productIds := Some(productIds))
  }

  function ToggleCategory(c: Category): Category {
    c.(isEnabled := !c.isEnabled)
  }

  /** The spread of `handleProductsSubmit`. */
  function AssignCategory(c: Category, productIds: seq<string>): Category {
    c.(productIds := Some(productIds))
  }

  /** `handleEditCategory`'s map: the categories with the id are edited,
      the others kept. */
  function EditedCategories(cs: seq<Category>, id: string, name: string, productIds: seq<string>): (r: seq<Category>)
    ensures |r| == |cs|
    ensures forall i :: 0 <= i < |cs| ==> r[i] == if cs[i].id == id then EditCategory(cs[i], name, productIds) else cs[i]
  {
    MapWhere(cs, id, (c: Category) => EditCategory(c, name, productIds))
  }

  /** `handleToggleEnabled`'s map: the categories with the id are toggled,
      the others kept. */
  function ToggledCategories(cs: seq<Category>, id: string): (r: seq<Category>)
    ensures |r| == |cs|
    ensures forall i :: 0 <= i < |cs| ==> r[i] == if cs[i].id == id then ToggleCategory(cs[i]) else cs[i]
  {
    MapWhere(cs, id, ToggleCategory)
  }

  /** `handleProductsSubmit`'s map: the categories with the id get the
      products, the others are kept. */
  function AssignedCategories(cs: seq<Category>, id: string, productIds: seq<string>): (r: seq<Category>)
    ensures |r| == |cs|
    ensures forall i :: 0 <= i < |cs| ==> r[i] == if cs[i].id == id then AssignCategory(cs[i], productIds) else cs[i]
  {
    MapWhere(cs, id, (c: Category) => AssignCategory(c, productIds))
  }

  /** Toggling flips `isEnabled` of the matching categories only, and
      toggling twice restores the list. */
  lemma ToggleTwiceRestores(cs: seq<Category>, id: string)
    ensures forall i :: 0 <= i < |cs| ==>
              ToggledCategories(cs, id)[i].isEnabled == (cs[i].isEnabled != (cs[i].id == id))
    ensures forall i :: 0 <= i < |cs| ==>
              ToggledCategories(cs, id)[i] == cs[i].(isEnabled := ToggledCategories(cs, id)[i].isEnabled)
    ensures ToggledCategories(ToggledCategories(cs, id), id) == cs
  {
    var once := ToggledCategories(cs, id);
    var twice := ToggledCategories(once, id);
    assert forall i :: 0 <= i < |cs| ==> twice[i] == cs[i];
  }

  /** Assigning products changes only `productIds` of the matching categories. */
  lemma AssignChangesOnlyProducts(cs: seq<Category>, id: string, productIds: seq<string>)
    ensures var r := AssignedCategories(cs, id, productIds);
            |r| == |cs|
            && (forall i :: 0 <= i < |cs| && cs[i].id == id ==> r[i] == cs[i].(productIds := Some(productIds)))
            && (forall i :: 0 <= i < |cs| && cs[i].id != id ==> r[i] == cs[i])
  {
  }

  /** Editing changes only name and products of the matching categories. */
  lemma EditChangesOnlyNameAndProducts(cs: seq<Category>, id: string, name: string, productIds: seq<string>)
    ensures var r := EditedCategories(cs, id, name, productIds);
            |r| == |cs|
            && (forall i :: 0 <= i < |cs| && cs[i].id == id ==>
                  r[i] == cs[i].(name := Trim(name), productIds := Some(productIds)))
            && (forall i :: 0 <= i < |cs| && cs[i].id != id ==> r[i] == cs[i])
  {
  }

  /** `categories.filter(cat => cat.id !== id)`: default categories go too. */
  function WithoutCategory(cs: seq<Category>, id: string): (r: seq<Category>)
    ensures forall c :: c in r <==> c in cs && c.id != id
  {
    Filter(cs, (c: Category) => c.id != id)
  }

  /** The copy `handleDuplicate` appends. */
  function DuplicatedCategory(c: Category, id: string): (r: Category)
    ensures r.id == id && r.name == c.name + " (Copy)" && r.isDefault == Some(false)
    ensures r.(id := c.id, name := c.name, isDefault := c.isDefault) == c
  {
    c.(id := id, name := c.name + " (Copy)", isDefault := Some(false))
  }

  /** The add and edit form: the typed name and the ticked products. */
  datatype CategoryForm = CategoryForm(name: string, productIds: seq<string>)

  const EmptyForm := CategoryForm("", [])

  const NameRequired := "Category name is required"

  /** The page's state. `user` is read directly by the seeding effect, so the
      page needs a signed-in user. */
  class CategoryManagementPage {
    const user: User
    const products: seq<Product>
    var categories: seq<Category>
    var showAddModal: bool
    var showEditModal: bool
    var showDeleteModal: bool
    var showProductsModal: bool
    var form: CategoryForm
    var selectedCategory: Option<Category>
    var error: string
    var selectedProducts: Option<seq<string>>

    constructor(user: User, products: seq<Product>, categories: seq<Category>)
      ensures this.user == user && this.products == products && this.categories == categories
      ensures !showAddModal && !showEditModal && !showDeleteModal && !showProductsModal
      ensures form == EmptyForm && selectedCategory == None
      ensures error == "" && selectedProducts == Some([])
    {
      this.user := user;
      this.products := products;
      this.categories := categories;
      showAddModal := false;
      showEditModal := false;
      showDeleteModal := false;
      showProductsModal := false;
      form := EmptyForm;
      selectedCategory := None;
      error := "";
      selectedProducts := Some([]);
    }

    function Table(): (r: seq<Category>)
      reads this
      ensures forall c :: c in r <==> c in categories && c.teamId == user.teamId
    {
      TeamCategories(user.teamId, categories)
    }

    /** The seeding effect. */
    method SeedDefaults()
      modifies this`categories
      ensures categories == Seeded(old(categories), user.teamId)
      ensures selectedCategory == old(selectedCategory) && error == old(error)
    {
      if |categories| == 0 {
        categories := DefaultCategories(user.teamId);
      }
    }

    /** A blank name is refused with 'Category name is required' and nothing
        is stored; otherwise the new category is appended and the add form
        closes and empties. */
    method HandleAddCategory(now: int)
      requires ShowsCategories(user)
      modifies this`categories, this`form, this`showAddModal, this`error
      ensures IsBlank(old(form).name) ==>
                error == NameRequired && categories == old(categories)
                && form == old(form) && showAddModal == old(showAddModal)
      ensures !IsBlank(old(form).name) ==>
                categories == old(categories) + [AddedCategory(CategoryId(now), user.teamId,
                                                               old(form).name, old(form).productIds)]
                && form == EmptyForm && !showAddModal && error == ""
      ensures selectedCategory == old(selectedCategory) && selectedProducts == old(selectedProducts)
      ensures showEditModal == old(showEditModal) && showDeleteModal == old(showDeleteModal)
      ensures showProductsModal == old(showProductsModal)
    {
      var f := form;
      if IsBlank(f.name) {
        error := NameRequired;
        return;
      }
      var c := MakeCategory(CategoryId(now), user.teamId, f.name, f.productIds);
      categories := categories + [c];
      form := EmptyForm;
      showAddModal := false;
      error := "";
    }

    /** A row's edit button: the edit form opens on that category. */
    method StartEdit(c: Category)
      modifies this`selectedCategory, this`form, this`showEditModal
      ensures selectedCategory == Some(c) && form == CategoryForm(c.name, c.productIds.GetOr([]))
      ensures showEditModal
      ensures categories == old(categories) && error == old(error)
      ensures selectedProducts == old(selectedProducts)
    {
      selectedCategory := Some(c);
      form := CategoryForm(c.name, c.productIds.GetOr([]));
      showEditModal := true;
    }

    /** Without a selected category, or with a blank name, the error is set
        and nothing is stored; otherwise the matching categories are edited
        and the form closes. */
    method HandleEditCategory()
      requires ShowsCategories(user)
      modifies this
      ensures old(selectedCategory).None? || IsBlank(old(form).name) ==>
                error == NameRequired && categories == old(categories)
                && selectedCategory == old(selectedCategory) && showEditModal == old(showEditModal)
                && form == old(form)
      ensures old(selectedCategory).Some? && !IsBlank(old(form).name) ==>
                categories == EditedCategories(old(categories), old(selectedCategory).value.id,
                                               old(form).name, old(form).productIds)
                && form == EmptyForm && selectedCategory == None
                && !showEditModal && error == ""
      ensures showAddModal == old(showAddModal) && showDeleteModal == old(showDeleteModal)
      ensures showProductsModal == old(showProductsModal) && selectedProducts == old(selectedProducts)
    {
      if selectedCategory.None? || Trim(form.name) == [] {
        error := NameRequired;
        return;
      }
      categories := EditedCategories(categories, selectedCategory.value.id, form.name,
                                     form.productIds);
      form := EmptyForm;
      selectedCategory := None;
      showEditModal := false;
      error := "";
    }

    /** A row's delete button. */
    method StartDelete(c: Category)
      modifies this`selectedCategory, this`showDeleteModal
      ensures selectedCategory == Some(c) && showDeleteModal
      ensures categories == old(categories) && error == old(error)
    {
      selectedCategory := Some(c);
      showDeleteModal := true;
    }

    /** Every category with the selected id goes, defaults included. */
    method HandleDeleteCategory()
      requires ShowsCategories(user)
      modifies this`categories, this`selectedCategory, this`showDeleteModal
      ensures old(selectedCategory).None? ==>
                categories == old(categories) && selectedCategory == None
                && showDeleteModal == old(showDeleteModal)
      ensures old(selectedCategory).Some? ==>
                categories == WithoutCategory(old(categories), old(selectedCategory).value.id)
                && selectedCategory == None && !showDeleteModal
      ensures error == old(error) && form == old(form)
      ensures showAddModal == old(showAddModal) && showEditModal == old(showEditModal)
    {
      if selectedCategory.None? {
        return;
      }
      categories := WithoutCategory(categories, selectedCategory.value.id);
      selectedCategory := None;
      showDeleteModal := false;
    }

    method HandleDuplicate(c: Category, now: int)
      requires ShowsCategories(user)
      modifies this`categories
      ensures categories == old(categories) + [DuplicatedCategory(c, CategoryId(now))]
      ensures selectedCategory == old(selectedCategory) && error == old(error)
    {
      categories := categories + [DuplicatedCategory(c, CategoryId(now))];
    }

    method HandleToggleEnabled(categoryId: string)
      requires ShowsCategories(user)
      modifies this`categories
      ensures categories == ToggledCategories(old(categories), categoryId)
      ensures selectedCategory == old(selectedCategory) && error == old(error)
    {
      categories := ToggledCategories(categories, categoryId);
    }

    /** A row's product button: the assignment dialog opens on the category's
        own list, which may be absent. */
    method StartManageProducts(c: Category)
      modifies this`selectedCategory, this`selectedProducts, this`showProductsModal
      ensures selectedCategory == Some(c) && selectedProducts == c.productIds && showProductsModal
      ensures categories == old(categories) && error == old(error)
    {
      selectedCategory := Some(c);
      selectedProducts := c.productIds;
      showProductsModal := true;
    }

    /** Without a selection nothing happens; otherwise the matching categories
        get the chosen products (`selectedProducts || []`) and the dialog
        closes. */
    method HandleProductsSubmit()
      requires ShowsCategories(user)
      modifies this`categories, this`showProductsModal, this`selectedProducts, this`selectedCategory
      ensures old(selectedCategory).None? ==>
                categories == old(categories) && selectedCategory == None
                && selectedProducts == old(selectedProducts) && showProductsModal == old(showProductsModal)
      ensures old(selectedCategory).Some? ==>
                categories == AssignedCategories(old(categories), old(selectedCategory).value.id,
                                                 old(selectedProducts).GetOr([]))
                && !showProductsModal && selectedProducts == Some([]) && selectedCategory == None
      ensures error == old(error) && form == old(form)
    {
      if selectedCategory.None? {
        return;
      }
      var chosen := selectedProducts.GetOr([]);
      categories := AssignedCategories(categories, selectedCategory.value.id, chosen);
      showProductsModal := false;
      selectedProducts := Some([]);
      selectedCategory := None;
    }
  }
}
