/** The product directory shared by every page (`src/context/ProductContext.tsx`):
    the stored products, the selected product and whether the product
    navigation is shown, with the access rule that guards selection. */
module ProductContext {
  import opened Base
  import opened Seqs
  import opened Types

  /** The access rule of the provider: an admin reaches the products of their
      own team (and no others, whatever `productIds` says); anyone else the
      products whose id is in their `productIds`. Without a user nothing is
      reachable. */
  predicate CanAccess(user: Option<User>, p: Product)
    ensures CanAccess(user, p) ==> user.Some?
    ensures user.Some? && user.value.role == Admin ==> (CanAccess(user, p) <==> p.teamId == user.value.teamId)
    ensures user.Some? && user.value.role != Admin ==>
              (CanAccess(user, p) <==> user.value.productIds.Some? && p.id in user.value.productIds.value)
  {
    user.Some? &&
    if user.value.role == Admin then p.teamId == user.value.teamId
    else HasProductId(user.value, p.id)
  }

  /** `accessibleProducts` of the selection-clearing effect, in stored order. */
  function AccessibleProducts(user: Option<User>, ps: seq<Product>): (r: seq<Product>)
    ensures forall p :: p in r <==> p in ps && CanAccess(user, p)
  {
    Filter(ps, (p: Product) => CanAccess(user, p))
  }

  /** `product.teamId === user?.teamId`. */
  predicate InUserTeam(user: Option<User>, p: Product) {
    user.Some? && p.teamId == user.value.teamId
  }

  /** `getTeamProducts`: the products of the user's team, in stored order. */
  function TeamProducts(user: Option<User>, ps: seq<Product>): (r: seq<Product>)
    ensures forall p :: p in r <==> p in ps && InUserTeam(user, p)
  {
    Filter(ps, (p: Product) => InUserTeam(user, p))
  }

  /** For an admin the reachable products are exactly the team's products. */
  lemma {:induction false} AdminAccessibleIsTeam(user: Option<User>, ps: seq<Product>)
    requires user.Some? && user.value.role == Admin
    ensures AccessibleProducts(user, ps) == TeamProducts(user, ps)
  {
    if ps != [] {
      AdminAccessibleIsTeam(user, ps[1..]);
    }
  }

  /** Some product of `ps` carries this id (`find(p => p.id === id)` succeeds). */
  predicate HasId(ps: seq<Product>, id: string) {
    exists i :: 0 <= i < |ps| && ps[i].id == id
  }

  /** The effect keeps a selection exactly when an accessible product has its id. */
  function SelectionAfterEffect(user: Option<User>, ps: seq<Product>, selected: Option<Product>): (r: Option<Product>)
    ensures r == selected || r == None
    ensures selected.Some? ==> (r == selected <==> HasId(AccessibleProducts(user, ps), selected.value.id))
  {
    if selected.Some? && !HasId(AccessibleProducts(user, ps), selected.value.id) then None else selected
  }

  /** A product the user may reach, still stored, survives the effect. */
  lemma SelectionSurvivesEffect(user: Option<User>, ps: seq<Product>, p: Product)
    requires p in ps && CanAccess(user, p)
    ensures SelectionAfterEffect(user, ps, Some(p)) == Some(p)
  {
    var acc := AccessibleProducts(user, ps);
    assert p in acc;
    var i :| 0 <= i < |acc| && acc[i] == p;
    assert acc[i].id == p.id;
  }

  /** `updateProduct`: every product with the updated one's id is replaced by it. */
  function ReplaceById(ps: seq<Product>, q: Product): (r: seq<Product>)
    ensures |r| == |ps|
    ensures forall i :: 0 <= i < |ps| ==> r[i] == (if ps[i].id == q.id then q else ps[i])
  {
    if ps == [] then [] else [if ps[0].id == q.id then q else ps[0]] + ReplaceById(ps[1..], q)
  }

  /** Replacing twice is replacing once. */
  lemma ReplaceByIdIdempotent(ps: seq<Product>, q: Product)
    ensures ReplaceById(ReplaceById(ps, q), q) == ReplaceById(ps, q)
  {
  }

  /** `products.filter(p => p.id !== id)`. */
  function WithoutId(ps: seq<Product>, id: string): (r: seq<Product>)
    ensures forall p :: p in r <==> p in ps && p.id != id
    ensures !HasId(r, id)
  {
    Filter(ps, (p: Product) => p.id != id)
  }

  /** `xs[0] || null`. */
  function First(ps: seq<Product>): (r: Option<Product>)
    ensures r.None? <==> ps == []
    ensures r.Some? ==> r.value == ps[0]
  {
    if ps == [] then None else Some(ps[0])
  }

  /** The selection `deleteProduct` falls back to: the first remaining product
      of the user's team, computed on the list before the deletion. */
  function DeleteFallback(user: Option<User>, ps: seq<Product>, id: string): (r: Option<Product>)
    ensures r.Some? ==> r.value in ps && r.value.id != id
  {
    First(WithoutId(TeamProducts(user, ps), id))
  }

  /** The fallback is never the deleted product, belongs to the user's team,
      and is still stored after the deletion; it is missing only when no
      other product of the team is left. */
  lemma DeleteFallbackSound(user: Option<User>, ps: seq<Product>, id: string)
    ensures DeleteFallback(user, ps, id).Some? ==>
              var q := DeleteFallback(user, ps, id).value;
              q.id != id && InUserTeam(user, q) && q in WithoutId(ps, id)
    ensures DeleteFallback(user, ps, id).None? <==>
              forall p :: p in ps && InUserTeam(user, p) ==> p.id == id
  {
    var rest := WithoutId(TeamProducts(user, ps), id);
    if rest != [] {
      assert rest[0] in rest;
    }
    if exists p :: p in ps && InUserTeam(user, p) && p.id != id {
      var p :| p in ps && InUserTeam(user, p) && p.id != id;
      assert p in rest;
    }
  }

  /** With one stored product, deleting it leaves no selection to fall back to. */
  lemma DeleteOnlyProduct(user: Option<User>, p: Product)
    ensures DeleteFallback(user, [p], p.id) == None
  {
    DeleteFallbackSound(user, [p], p.id);
  }

  /** The provider's state. */
  class ProductDirectory {
    var products: seq<Product>
    var selected: Option<Product>
    var showProductNav: bool
    var user: Option<User>

    constructor(user: Option<User>, products: seq<Product>, selected: Option<Product>)
      ensures this.user == user && this.products == products && this.selected == selected
      ensures !showProductNav
    {
      this.user := user;
      this.products := products;
      this.selected := selected;
      showProductNav := false;
    }

    /** The effect that runs whenever products, user or selection change. */
    method ClearInaccessibleSelection()
      modifies this
      ensures selected == SelectionAfterEffect(user, products, old(selected))
      ensures products == old(products) && user == old(user) && showProductNav == old(showProductNav)
    {
      if selected.Some? && !HasId(AccessibleProducts(user, products), selected.value.id) {
        selected := None;
      }
    }

    method GetTeamProducts() returns (r: seq<Product>)
      ensures r == TeamProducts(user, products)
    {
      r := TeamProducts(user, products);
    }

    method AddProduct(p: Product)
      modifies this
      ensures products == old(products) + [p]
      ensures selected == old(selected) && user == old(user) && showProductNav == old(showProductNav)
    {
      products := products + [p];
    }

    method UpdateProduct(q: Product)
      modifies this
      ensures products == ReplaceById(old(products), q)
      ensures selected == old(selected) && user == old(user) && showProductNav == old(showProductNav)
    {
      products := ReplaceById(products, q);
    }

    method DeleteProduct(id: string)
      modifies this
      ensures products == WithoutId(old(products), id)
      ensures selected == (if old(selected).Some? && old(selected).value.id == id
                           then DeleteFallback(user, old(products), id) else old(selected))
      ensures user == old(user) && showProductNav == old(showProductNav)
    {
      var before := products;
      products := WithoutId(products, id);
      if selected.Some? && selected.value.id == id {
        selected := DeleteFallback(user, before, id);
      }
    }

    /** `selectProduct`: null clears the selection and hides the product
        navigation; an accessible product becomes the selection and shows it;
        any other product is refused without a change. */
    method SelectProduct(p: Option<Product>)
      modifies this
      ensures p.None? ==> selected == None && !showProductNav
      ensures p.Some? && CanAccess(user, p.value) ==> selected == p && showProductNav
      ensures p.Some? && !CanAccess(user, p.value) ==>
                selected == old(selected) && showProductNav == old(showProductNav)
      ensures products == old(products) && user == old(user)
    {
      if p.None? {
        selected := None;
        showProductNav := false;
        return;
      }
      if CanAccess(user, p.value) {
        selected := p;
        showProductNav := true;
      }
    }
  }
}
