/** The product discovery page (`src/pages/ProductDiscovery.tsx`): which
    products a visitor may see, the search over them, and the link each card
    leads to. Team ownership plays no part. */
module ProductDiscovery {
  import opened Base
  import opened Seqs
  import opened Strings
  import opened Types
  import Auth

  /** `user?.email.split('@')[1] || ''`. */
  function UserDomain(user: Option<User>): (d: string)
    ensures user.Some? && EmailDomain(user.value.email).Some? ==> d == EmailDomain(user.value.email).value
    ensures user.None? || '@' !in user.value.email ==> d == ""
  {
    if user.Some? then EmailDomain(user.value.email).GetOr("") else ""
  }

  /** The predicate of `availableProducts`. */
  predicate Available(user: Option<User>, p: Product) {
    p.accessType == Public
    || (p.accessType == Private && p.allowedDomains.Some? && UserDomain(user) in p.allowedDomains.value)
  }

  function AvailableTo(user: Option<User>): Product -> bool {
    (p: Product) => Available(user, p)
  }

  function AvailableProducts(user: Option<User>, ps: seq<Product>): (r: seq<Product>)
    ensures forall p :: p in r <==> p in ps && Available(user, p)
  {
    Filter(ps, AvailableTo(user))
  }

  /** A private product without a domain list is never listed. */
  lemma PrivateWithoutDomainsHidden(user: Option<User>, p: Product)
    requires p.accessType == Private && p.allowedDomains.None?
    ensures !Available(user, p)
  {
  }

  /** For a signed-in user whose email has a domain, the page lists a
      product exactly when `login` with its slug passes the product check. */
  lemma DiscoveryAgreesWithLogin(user: User, p: Product)
    requires '@' in user.email
    ensures Available(Some(user), p) <==> Auth.ProductCheck(Some(p), user.email) == None
  {
  }

  /** The edge where the two disagree: a visitor without a domain sees a
      private product that lists the empty domain. */
  lemma EmptyDomainAdmitsVisitors(p: Product)
    requires p.accessType == Private && p.allowedDomains.Some? && "" in p.allowedDomains.value
    ensures Available(None, p)
  {
  }

  /** The search predicate: the term inside the lower-cased name or description. */
  predicate MatchesSearch(term: string, p: Product) {
    Contains(ToLower(p.name), ToLower(term)) || Contains(ToLower(p.description), ToLower(term))
  }

  function SearchFor(term: string): Product -> bool {
    (p: Product) => MatchesSearch(term, p)
  }

  /** `filteredProducts`. */
  function FilteredProducts(user: Option<User>, ps: seq<Product>, term: string): (r: seq<Product>)
    ensures forall p :: p in r <==> p in ps && Available(user, p) && MatchesSearch(term, p)
  {
    Filter(AvailableProducts(user, ps), SearchFor(term))
  }

  /** The empty search term keeps every available product. */
  lemma EmptySearchKeepsAll(user: Option<User>, ps: seq<Product>)
    ensures FilteredProducts(user, ps, "") == AvailableProducts(user, ps)
  {
    var av := AvailableProducts(user, ps);
    forall i | 0 <= i < |av| ensures MatchesSearch("", av[i]) {
      ContainsEmpty(ToLower(av[i].name));
    }
    FilterAll(av, SearchFor(""));
  }

  /** `/login?product=${product.slug}`. */
  function AccessLink(p: Product): (r: string)
    ensures |r| == 15 + |p.slug| && r[15..] == p.slug && r[..15] == "/login?product="
  {
    "/login?product=" + p.slug
  }
}
