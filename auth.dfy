/** The authentication provider (`src/context/AuthContext.tsx`): when a
    stored session must be refreshed, the user record built from a session
    and its profile, what is kept in local storage, and the product checks
    and access grant of `login`. Network answers (the sign-in result, the
    profile, the product looked up by slug) and the clock are parameters. */
module Auth {
  import opened Base
  import opened Strings
  import opened Types

  /** `REFRESH_INTERVAL`: 12 hours in milliseconds. */
  const RefreshInterval: int := 12 * 60 * 60 * 1000

  /** `TOKEN_EXPIRY`: 21 days in milliseconds. */
  const TokenExpiry: int := 21 * 24 * 60 * 60 * 1000

  /** A time stamp read back from local storage: missing (or the empty
      text), a number, or a text `parseInt` cannot read. */
  datatype Stored = Absent | Numeric(value: int) | NotANumber

  /** `shouldRefreshSession`. A comparison with NaN is false, so an
      unreadable stamp never forces a refresh by itself. */
  function ShouldRefreshSession(lastRefresh: Stored, expiry: Stored, now: int): (r: bool)
    ensures lastRefresh.Absent? || expiry.Absent? ==> r
    ensures lastRefresh.Numeric? && expiry.Numeric? ==>
              (r <==> expiry.value - now < RefreshInterval || now - lastRefresh.value > RefreshInterval)
    ensures lastRefresh.NotANumber? && expiry.NotANumber? ==> !r
    ensures lastRefresh.NotANumber? && expiry.Numeric? ==> (r <==> expiry.value - now < RefreshInterval)
    ensures lastRefresh.Numeric? && expiry.NotANumber? ==> (r <==> now - lastRefresh.value > RefreshInterval)
  {
    if lastRefresh.Absent? then true
    else if expiry.Absent? then true
    else if expiry.Numeric? && expiry.value - now < RefreshInterval then true
    else if lastRefresh.Numeric? && now - lastRefresh.value > RefreshInterval then true
    else false
  }

  /** After `handleSession` stored `now` and `now + TOKEN_EXPIRY`, the check
      asks for a refresh exactly once more than 12 hours have passed. */
  lemma RefreshAfterStoring(now: int, t: int)
    ensures ShouldRefreshSession(Numeric(now), Numeric(now + TokenExpiry), t) <==> t - now > RefreshInterval
    ensures !ShouldRefreshSession(Numeric(now), Numeric(now + TokenExpiry), now)
  {
  }

  /** `initializeAuth`: keep the current session only when there is one and
      no refresh is due; otherwise try a refresh. */
  datatype InitStep = UseSession | TryRefresh

  function InitialStep(hasSession: bool, lastRefresh: Stored, expiry: Stored, now: int): (r: InitStep)
    ensures r == UseSession <==> hasSession && !ShouldRefreshSession(lastRefresh, expiry, now)
  {
    if hasSession && !ShouldRefreshSession(lastRefresh, expiry, now) then UseSession else TryRefresh
  }

  /** `session.user`: the account id, email and sign-up metadata name. */
  datatype SessionUser = SessionUser(id: string, email: string, metadataName: Option<string>)

  datatype Session = Session(user: Option<SessionUser>, accessToken: string)

  /** A `profiles` row joined with the user's product ids. */
  datatype Profile = Profile(name: Option<string>, role: Option<string>, teamId: string,
                             productIds: Option<seq<string>>)

  /** `a || b` over optional texts: the first one that is present and not empty. */
  function OrElse(a: Option<string>, b: string): (r: string)
    ensures a.Some? && a.value != "" ==> r == a.value
    ensures a.None? || a.value == "" ==> r == b
  {
    if a.Some? && a.value != "" then a.value else b
  }

  /** The name shown for the user: the profile's, else the metadata name, else ''. */
  function UserName(p: Profile, su: SessionUser): string {
    OrElse(p.name, OrElse(su.metadataName, ""))
  }

  /** `userData` of `handleSession`. */
  function UserRecord(su: SessionUser, p: Profile): (u: User)
    ensures u.id == su.id && u.email == su.email && u.teamId == p.teamId
    ensures u.name == UserName(p, su)
    ensures u.role == ParseRole(OrElse(p.role, "customer"))
    ensures u.productIds == Some(p.productIds.GetOr([]))
    ensures u.status == None
  {
    User(su.id, su.email, UserName(p, su), ParseRole(OrElse(p.role, "customer")), p.teamId,
         Some(p.productIds.GetOr([])), None)
  }

  /** Without a role in the profile the user is a customer. */
  lemma MissingRoleIsCustomer(su: SessionUser, p: Profile)
    requires p.role.None? || p.role == Some("")
    ensures UserRecord(su, p).role == Customer
  {
  }

  /** The name falls back from the profile to the metadata to ''. */
  lemma NameFallback(su: SessionUser, p: Profile)
    ensures p.name.Some? && p.name.value != "" ==> UserRecord(su, p).name == p.name.value
    ensures (p.name.None? || p.name.value == "") && su.metadataName.Some? && su.metadataName.value != ""
            ==> UserRecord(su, p).name == su.metadataName.value
    ensures (p.name.None? || p.name.value == "") && (su.metadataName.None? || su.metadataName.value == "")
            ==> UserRecord(su, p).name == ""
  {
  }

  const InvalidProduct := "Invalid product"
  const DomainDenied := "Access denied: Your email domain is not authorized for this product"

  /** `product.allowed_domains?.includes(email.split('@')[1])`: an email
      without '@' has no domain and matches nothing. */
  predicate LoginDomainAllowed(p: Product, email: string)
    ensures LoginDomainAllowed(p, email) ==> '@' in email && p.allowedDomains.Some?
    ensures p.allowedDomains.None? || p.allowedDomains.value == [] ==> !LoginDomainAllowed(p, email)
  {
    EmailDomain(email).Some? && p.allowedDomains.Some? && EmailDomain(email).value in p.allowedDomains.value
  }

  /** The product checks of `login`: an unknown slug, then the domain of a
      private product. A public product is never refused. */
  function ProductCheck(found: Option<Product>, email: string): (r: Option<string>)
    ensures found.None? ==> r == Some(InvalidProduct)
    ensures found.Some? && found.value.accessType == Public ==> r == None
    ensures found.Some? && found.value.accessType == Private ==>
              (r == None <==> LoginDomainAllowed(found.value, email))
    ensures r.Some? ==> r == Some(InvalidProduct) || r == Some(DomainDenied)
  {
    if found.None? then Some(InvalidProduct)
    else if found.value.accessType == Private && !LoginDomainAllowed(found.value, email) then Some(DomainDenied)
    else None
  }

  /** A `product_access` row. */
  datatype Grant = Grant(productId: string, userId: Option<string>)

  /** The grant step. The lookup uses `.single()`, which finds a row only
      when exactly one matches, so a row is inserted unless the pair is
      stored exactly once: with no row, and again with two or more. */
  function Granted(grants: seq<Grant>, g: Grant): (r: seq<Grant>)
    ensures g in r
    ensures multiset(grants)[g] == 1 ==> r == grants
    ensures multiset(grants)[g] != 1 ==> r == grants + [g]
  {
    if multiset(grants)[g] == 1 then grants else grants + [g]
  }

  /** Granting twice is granting once exactly while the pair is stored at
      most once; from two rows on every grant adds another. */
  lemma GrantIdempotent(grants: seq<Grant>, g: Grant)
    ensures Granted(Granted(grants, g), g) == Granted(grants, g) <==> multiset(grants)[g] <= 1
  {
    if multiset(grants)[g] >= 2 {
      assert |Granted(Granted(grants, g), g)| == |grants| + 2;
    }
  }

  /** The provider's state: the user, the local storage keys it writes, and
      the product access rows. */
  class AuthSession {
    var user: Option<User>
    var token: Option<string>
    var storedUser: Option<User>
    var lastRefresh: Stored
    var expiry: Stored
    var rememberedEmail: Option<string>
    var grants: seq<Grant>

    constructor(grants: seq<Grant>)
      ensures user == None && token == None && storedUser == None
      ensures lastRefresh == Absent && expiry == Absent && rememberedEmail == None
      ensures this.grants == grants
    {
      user := None;
      token := None;
      storedUser := None;
      lastRefresh := Absent;
      expiry := Absent;
      rememberedEmail := None;
      this.grants := grants;
    }

    /** Every stored session key gone and no user. */
    predicate SignedOut()
      reads this
    {
      user == None && token == None && storedUser == None && lastRefresh == Absent && expiry == Absent
    }

    /** `handleSession`: with a session user and a profile the user record is
        built and stored with the refresh and expiry stamps; otherwise the
        user and the stored session are cleared. */
    method HandleSession(session: Option<Session>, profile: Option<Profile>, now: int)
      modifies this
      ensures session.Some? && session.value.user.Some? && profile.Some? ==>
                var u := UserRecord(session.value.user.value, profile.value);
                user == Some(u) && storedUser == Some(u) && token == Some(session.value.accessToken)
                && lastRefresh == Numeric(now) && expiry == Numeric(now + TokenExpiry)
      ensures !(session.Some? && session.value.user.Some? && profile.Some?) ==> SignedOut()
      ensures grants == old(grants) && rememberedEmail == old(rememberedEmail)
    {
      if session.Some? && session.value.user.Some? && profile.Some? {
        var u := UserRecord(session.value.user.value, profile.value);
        user := Some(u);
        token := Some(session.value.accessToken);
        storedUser := Some(u);
        lastRefresh := Numeric(now);
        expiry := Numeric(now + TokenExpiry);
      } else {
        user := None;
        token := None;
        storedUser := None;
        lastRefresh := Absent;
        expiry := Absent;
      }
    }

    /** `login`. A sign-in error is rethrown. With a product slug the product
        must exist and, when private, admit the email's domain; then a grant
        is added unless one exists. A returned session is then handled and
        the email remembered on request. The returned text is the error
        thrown, if any; an error leaves the state as it was. */
    method Login(email: string, rememberMe: bool, productSlug: Option<string>,
                 signInError: Option<string>, session: Option<Session>,
                 found: Option<Product>, profile: Option<Profile>, now: int)
      returns (failure: Option<string>)
      modifies this
      ensures failure == (if signInError.Some? then signInError
                          else if productSlug.Some? && productSlug.value != "" then ProductCheck(found, email)
                          else None)
      ensures signInError.None? && (productSlug.None? || productSlug.value == "") ==> failure.None?
      ensures failure.Some? ==>
                user == old(user) && token == old(token) && storedUser == old(storedUser)
                && grants == old(grants) && lastRefresh == old(lastRefresh)
                && expiry == old(expiry) && rememberedEmail == old(rememberedEmail)
      ensures failure.None? && productSlug.Some? && productSlug.value != "" ==>
                grants == Granted(old(grants), Grant(found.value.id, SessionUserId(session)))
      ensures failure.None? && (productSlug.None? || productSlug.value == "") ==> grants == old(grants)
      ensures failure.None? && session.Some? && session.value.user.Some? && profile.Some? ==>
                user == Some(UserRecord(session.value.user.value, profile.value))
                && storedUser == user && token == Some(session.value.accessToken)
                && lastRefresh == Numeric(now) && expiry == Numeric(now + TokenExpiry)
      ensures failure.None? && session.Some? && !(session.value.user.Some? && profile.Some?) ==> SignedOut()
      ensures failure.None? && session.None? ==>
                user == old(user) && token == old(token) && storedUser == old(storedUser)
                && lastRefresh == old(lastRefresh) && expiry == old(expiry)
      ensures failure.None? ==>
                rememberedEmail == (if session.Some? && rememberMe then Some(email) else old(rememberedEmail))
    {
      if signInError.Some? {
        return signInError;
      }
      if productSlug.Some? && productSlug.value != "" {
        var check := ProductCheck(found, email);
        if check.Some? {
          return check;
        }
        grants := Granted(grants, Grant(found.value.id, SessionUserId(session)));
      }
      if session.Some? {
        HandleSession(session, profile, now);
        if rememberMe {
          rememberedEmail := Some(email);
        }
      }
      failure := None;
    }

    /** `logout`: the session is cleared. */
    method Logout()
      modifies this
      ensures SignedOut()
      ensures grants == old(grants) && rememberedEmail == old(rememberedEmail)
    {
      HandleSession(None, None, 0);
    }
  }

  /** `data.session?.user.id`. */
  function SessionUserId(session: Option<Session>): Option<string> {
    if session.Some? && session.value.user.Some? then Some(session.value.user.value.id) else None
  }
}
