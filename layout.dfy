/** The two navigation lists of the page shell (`src/components/Layout.tsx`):
    every item is declared with an optional `show` flag computed from the
    signed-in user's role, and the list keeps the items whose flag is not
    `false`. */
module Layout {
  import opened Base
  import opened Seqs
  import opened Types

  /** The pages the navigation can link to. */
  datatype Page = Dashboard | Products | Tickets | Team | Categories | Templates | Analytics

  /** A navigation entry; an absent `show` means the item is always listed. */
  datatype NavItem = NavItem(name: Page, href: string, show: Option<bool>)

  /** `item.show !== false`. */
  predicate Kept(item: NavItem) {
    item.show != Some(false)
  }

  /** `user?.role === 'admin'`: false without a user. */
  predicate IsAdmin(user: Option<User>) {
    user.Some? && user.value.role == Admin
  }

  /** `user?.role !== 'customer'`: true without a user. */
  predicate NotCustomer(user: Option<User>) {
    !(user.Some? && user.value.role == Customer)
  }

  /** The entries' names, in order. */
  function Names(items: seq<NavItem>): (r: seq<Page>)
    ensures |r| == |items|
    ensures forall i :: 0 <= i < |items| ==> r[i] == items[i].name
  {
    seq(|items|, i requires 0 <= i < |items| => items[i].name)
  }

  /** The top navigation as declared, before filtering. */
  function AdminItems(user: Option<User>): seq<NavItem> {
    [NavItem(Dashboard, "/dashboard", None),
     NavItem(Products, "/products", Some(IsAdmin(user)))]
  }

  /** The product navigation as declared, before filtering, given the
      values of the two role tests. */
  function ProductItems(admin: bool, notCustomer: bool): seq<NavItem> {
    [NavItem(Tickets, "/tickets", None),
     NavItem(Team, "/team", Some(admin)),
     NavItem(Categories, "/categories", Some(admin)),
     NavItem(Templates, "/templates", Some(admin)),
     NavItem(Analytics, "/analytics", Some(notCustomer))]
  }

  /** `adminNavigation`: Dashboard always, Products only for an admin. */
  function AdminNavigation(user: Option<User>): (r: seq<NavItem>)
    ensures forall it :: it in r <==> it in AdminItems(user) && Kept(it)
    ensures Names(r) == if IsAdmin(user) then [Dashboard, Products] else [Dashboard]
  {
    var items := AdminItems(user);
    assert items[1..][1..] == [];
    Filter(items, Kept)
  }

  /** `productNavigation`: the declared items whose flag is not false. */
  function ProductNavigation(user: Option<User>): (r: seq<NavItem>)
    ensures forall it :: it in r <==> it in ProductItems(IsAdmin(user), NotCustomer(user)) && Kept(it)
  {
    Filter(ProductItems(IsAdmin(user), NotCustomer(user)), Kept)
  }

  /** What the filter keeps of one entry. */
  function Keep(it: NavItem): (r: seq<NavItem>)
    ensures r == [] || r == [it]
  {
    if Kept(it) then [it] else []
  }

  /** Filtering takes the entries one at a time from the front. */
  lemma FilterCons(it: NavItem, rest: seq<NavItem>)
    ensures Filter([it] + rest, Kept) == Keep(it) + Filter(rest, Kept)
  {
    assert ([it] + rest)[1..] == rest;
  }

  /** The filter over five declared entries, one entry at a time. */
  lemma FilterFive(x0: NavItem, x1: NavItem, x2: NavItem, x3: NavItem, x4: NavItem)
    ensures Filter([x0, x1, x2, x3, x4], Kept)
            == Keep(x0) + (Keep(x1) + (Keep(x2) + (Keep(x3) + Keep(x4))))
  {
    var f4 := Filter([x4], Kept);
    assert f4 == Keep(x4) by {
      FilterCons(x4, []);
      assert [x4] + [] == [x4];
    }
    var f3 := Filter([x3, x4], Kept);
    assert f3 == Keep(x3) + f4 by {
      FilterCons(x3, [x4]);
      assert [x3] + [x4] == [x3, x4];
    }
    var f2 := Filter([x2, x3, x4], Kept);
    assert f2 == Keep(x2) + f3 by {
      FilterCons(x2, [x3, x4]);
      assert [x2] + [x3, x4] == [x2, x3, x4];
    }
    var f1 := Filter([x1, x2, x3, x4], Kept);
    assert f1 == Keep(x1) + f2 by {
      FilterCons(x1, [x2, x3, x4]);
      assert [x1] + [x2, x3, x4] == [x1, x2, x3, x4];
    }
    assert Filter([x0, x1, x2, x3, x4], Kept) == Keep(x0) + f1 by {
      FilterCons(x0, [x1, x2, x3, x4]);
      assert [x0] + [x1, x2, x3, x4] == [x0, x1, x2, x3, x4];
    }
  }

  /** What the filter keeps of the declared product items. An admin is
      never a customer, hence the requirement. */
  lemma ProductItemsKept(a: bool, c: bool)
    requires a ==> c
    ensures var it := ProductItems(a, c);
            Filter(it, Kept) == if a then it else if c then [it[0], it[4]] else [it[0]]
  {
    var it := ProductItems(a, c);
    assert it == [it[0], it[1], it[2], it[3], it[4]];
    FilterFive(it[0], it[1], it[2], it[3], it[4]);
  }

  /** The same, named page by page. */
  lemma ProductNamesKept(a: bool, c: bool)
    requires a ==> c
    ensures Names(Filter(ProductItems(a, c), Kept)) ==
              if a then [Tickets, Team, Categories, Templates, Analytics]
              else if c then [Tickets, Analytics]
              else [Tickets]
  {
    var f := Filter(ProductItems(a, c), Kept);
    var t := NavItem(Tickets, "/tickets", None);
    var y := NavItem(Analytics, "/analytics", Some(c));
    if a {
      assert f == ProductItems(a, c) by { ProductItemsKept(a, c); }
      NamesOfFive(f);
    } else if c {
      assert f == [t, y] by { ProductItemsKept(a, c); }
      assert Names(f) == [Tickets, Analytics];
    } else {
      assert f == [t] by { ProductItemsKept(a, c); }
      assert Names(f) == [Tickets];
    }
  }

  lemma NamesOfFive(f: seq<NavItem>)
    requires f == ProductItems(true, true)
    ensures Names(f) == [Tickets, Team, Categories, Templates, Analytics]
  {
    var n := Names(f);
    assert |n| == 5 && n[0] == Tickets && n[1] == Team && n[2] == Categories;
    assert n[3] == Templates && n[4] == Analytics;
  }

  /** Tickets always; Team, Categories and Templates only for an admin;
      Analytics for everyone but a customer (so also without a user); in
      the declared order. */
  lemma ProductNavigationByRole(user: Option<User>)
    ensures Names(ProductNavigation(user)) ==
              if IsAdmin(user) then [Tickets, Team, Categories, Templates, Analytics]
              else if NotCustomer(user) then [Tickets, Analytics]
              else [Tickets]
  {
    ProductNamesKept(IsAdmin(user), NotCustomer(user));
  }

  /** The top navigation is never empty: Dashboard heads it. */
  lemma AdminNavigationNonEmpty(user: Option<User>)
    ensures |AdminNavigation(user)| >= 1 && AdminNavigation(user)[0].name == Dashboard
  {
    assert Names(AdminNavigation(user))[0] == Dashboard;
  }

  /** An agent sees no Products link, and exactly Tickets and Analytics for
      the product. */
  lemma AgentNavigation(user: User)
    requires user.role == Agent
    ensures Names(AdminNavigation(Some(user))) == [Dashboard]
    ensures Names(ProductNavigation(Some(user))) == [Tickets, Analytics]
  {
    ProductNavigationByRole(Some(user));
  }
}
