/** Input transforms of the product form (`src/components/products/ProductForm.tsx`):
    the slug field's sanitiser, the comma-separated domain list, and when the
    domain field is shown. */
module ProductForm {
  import opened Strings
  import opened Slug
  import opened Types

  /** The values the form edits. */
  datatype ProductFields = ProductFields(name: string, description: string,
                                         accessType: AccessType,
                                         allowedDomains: seq<string>, slug: string)

  /** The empty form: blank texts, public access, no domains. */
  const EmptyFields := ProductFields("", "", Public, [], "")

  /** `toLowerCase().replace(/[^a-z0-9-]/g, '-')`, one character at a time. */
  function SanitizeChar(c: char): (r: char)
    ensures SlugChar(r)
    ensures SlugChar(LowerChar(c)) ==> r == LowerChar(c)
    ensures !SlugChar(LowerChar(c)) ==> r == '-'
  {
    var l := LowerChar(c);
    if SlugChar(l) then l else '-'
  }

  /** The slug handler: same length as the typed text, every character in
      `a-z0-9-`, allowed characters kept (lower-cased) in place. */
  function SanitizeSlugInput(s: string): (r: string)
    ensures |r| == |s|
    ensures AllSlugChars(r)
    ensures forall i :: 0 <= i < |s| ==> r[i] == SanitizeChar(s[i])
  {
    if s == [] then [] else [SanitizeChar(s[0])] + SanitizeSlugInput(s[1..])
  }

  /** Sanitising a sanitised slug changes nothing. */
  lemma SanitizeIdempotent(s: string)
    ensures SanitizeSlugInput(SanitizeSlugInput(s)) == SanitizeSlugInput(s)
  {
    var r := SanitizeSlugInput(s);
    assert forall i :: 0 <= i < |r| ==> SanitizeChar(r[i]) == r[i];
  }

  /** A text that is already a slug passes through unchanged. */
  lemma SanitizeKeepsSlugs(s: string)
    requires AllSlugChars(s)
    ensures SanitizeSlugInput(s) == s
  {
  }

  /** `d => d.trim()` over a list. */
  function TrimEach(ps: seq<string>): (r: seq<string>)
    ensures |r| == |ps|
    ensures forall i :: 0 <= i < |ps| ==> r[i] == Trim(ps[i])
  {
    seq(|ps|, i requires 0 <= i < |ps| => Trim(ps[i]))
  }

  /** The text shown in the domain field. */
  function DisplayDomains(ds: seq<string>): string {
    Join(ds, ", ")
  }

  /** The list the domain field's change handler produces: one trimmed piece
      per comma-separated part, so there is always at least one piece. */
  function ParseDomains(text: string): (r: seq<string>)
    ensures |r| == |Split(text, ',')| >= 1
  {
    var pieces := Split(text, ',');
    TrimEach(pieces)
  }

  /** Clearing the field yields [''] rather than []. */
  lemma ParseEmptyField()
    ensures ParseDomains("") == [""]
  {
  }

  /** A domain as it can be typed back: no comma and no white space at either end. */
  predicate CleanDomain(d: string) {
    ',' !in d && Trim(d) == d
  }

  /** Trimming undoes the space the display puts before every domain but the first. */
  lemma TrimAfterSeparator(ds: seq<string>)
    requires forall i :: 0 <= i < |ds| ==> CleanDomain(ds[i])
    ensures TrimEach(PrefixEach(" ", ds)) == ds
  {
    var r := TrimEach(PrefixEach(" ", ds));
    forall i | 0 <= i < |ds|
      ensures r[i] == ds[i]
    {
      assert CleanDomain(ds[i]);
      TrimLeadingSpace(ds[i]);
    }
  }

  /** Splitting the displayed list at its commas gives the domains back, each
      but the first still led by the space of the separator. */
  lemma DisplaySplit(ds: seq<string>)
    requires |ds| >= 1
    requires forall i :: 0 <= i < |ds| ==> ',' !in ds[i]
    ensures Split(DisplayDomains(ds), ',') == [ds[0]] + PrefixEach(" ", ds[1..])
  {
    var sep: string := [','] + " ";
    assert sep == ", " by {
      assert |sep| == 2 && sep[0] == ',' && sep[1] == ' ';
    }
    SplitJoin(ds, ',', " ");
  }

  /** Parsing the displayed list gives it back, provided it is non-empty and
      every domain is clean. */
  lemma ParseDisplayRoundTrip(ds: seq<string>)
    requires |ds| >= 1
    requires forall i :: 0 <= i < |ds| ==> CleanDomain(ds[i])
    ensures ParseDomains(DisplayDomains(ds)) == ds
  {
    var pieces := Split(DisplayDomains(ds), ',');
    DisplaySplit(ds);
    var r := ParseDomains(DisplayDomains(ds));
    forall i | 0 <= i < |ds|
      ensures r[i] == ds[i]
    {
      assert CleanDomain(ds[i]);
      if i > 0 {
        assert pieces[i] == " " + ds[i];
        TrimLeadingSpace(ds[i]);
      }
    }
  }

  /** The domain field is rendered only for private products. */
  predicate ShowsDomainField(accessType: AccessType)
    ensures ShowsDomainField(accessType) <==> AccessName(accessType) == "private"
  {
    accessType == Private
  }
}
