/** URL slugs for products: `generateSlug`, which appears with the same text
    in `src/pages/ProductManagement.tsx` and `src/hooks/useProductForm.ts`.
    The text is lower-cased, characters outside `a-z0-9-` are dropped except
    that a space becomes '-' unless the slug built so far already ends in '-',
    leading and trailing '-' are cut off, and an empty result becomes
    'untitled'. */
module Slug {
  import opened Seqs
  import opened Strings

  /** The characters of `allowedChars`: `abcdefghijklmnopqrstuvwxyz0123456789-`. */
  predicate SlugChar(c: char) {
    IsAsciiLower(c) || IsDigit(c) || c == '-'
  }

  predicate AllSlugChars(s: string) {
    forall i :: 0 <= i < |s| ==> SlugChar(s[i])
  }

  /** One pass of the loop body: keep an allowed character, turn a space into
      '-' unless the slug already ends in one (an empty slug does not), and
      drop anything else. */
  function Step(slug: string, c: char): string {
    if SlugChar(c) then slug + [c]
    else if c == ' ' && (slug == [] || slug[|slug| - 1] != '-') then slug + ['-']
    else slug
  }

  /** The slug after the loop has consumed all of `s`. */
  function RawSlug(s: string): (r: string)
    ensures AllSlugChars(r)
    ensures |r| <= |s|
  {
    if s == [] then [] else Step(RawSlug(s[..|s| - 1]), s[|s| - 1])
  }

  /** `replace(/^-+|-+$/g, '')`. */
  function DropLeadingHyphens(s: string): (r: string)
    ensures |r| <= |s| && r == s[|s| - |r|..]
    ensures r == [] || r[0] != '-'
    ensures forall i :: 0 <= i < |s| - |r| ==> s[i] == '-'
  {
    if s != [] && s[0] == '-' then DropLeadingHyphens(s[1..]) else s
  }

  function DropTrailingHyphens(s: string): (r: string)
    ensures |r| <= |s| && r == s[..|r|]
    ensures r == [] || r[|r| - 1] != '-'
    ensures forall i :: |r| <= i < |s| ==> s[i] == '-'
  {
    if s != [] && s[|s| - 1] == '-' then DropTrailingHyphens(s[..|s| - 1]) else s
  }

  function StripHyphens(s: string): (r: string)
    ensures r == [] || (r[0] != '-' && r[|r| - 1] != '-')
    ensures AllSlugChars(s) ==> AllSlugChars(r)
  {
    DropTrailingHyphens(DropLeadingHyphens(s))
  }

  /** The value `generateSlug(text)` returns. */
  function SlugOf(text: string): (r: string)
    ensures WellFormedSlug(r)
  {
    var s := StripHyphens(RawSlug(ToLower(text)));
    assert WellFormedSlug("untitled");
    if s == [] then "untitled" else s
  }

  /** A slug is made of `a-z0-9-` only, never starts or ends with '-', and is
      never empty. */
  predicate WellFormedSlug(s: string) {
    s != [] && AllSlugChars(s) && s[0] != '-' && s[|s| - 1] != '-'
  }

  lemma SlugOfWellFormed(text: string)
    ensures WellFormedSlug(SlugOf(text))
  {
  }

  /** A text made of allowed characters passes the loop unchanged. */
  lemma {:induction false} RawSlugOfSlugChars(s: string)
    requires AllSlugChars(s)
    ensures RawSlug(s) == s
  {
    if s != [] {
      RawSlugOfSlugChars(s[..|s| - 1]);
      assert s[..|s| - 1] + [s[|s| - 1]] == s;
    }
  }

  /** Without spaces the loop is a plain filter: disallowed characters vanish
      and the allowed ones keep their order, '-' runs included. */
  lemma {:induction false} RawSlugWithoutSpaces(s: string)
    requires ' ' !in s
    ensures RawSlug(s) == Filter(s, SlugChar)
  {
    if s != [] {
      var init, last := s[..|s| - 1], s[|s| - 1];
      assert s == init + [last];
      RawSlugWithoutSpaces(init);
      FilterConcat(init, [last], SlugChar);
      assert Filter([last], SlugChar) == (if SlugChar(last) then [last] else []);
    }
  }

  lemma StripHyphensUnchanged(s: string)
    requires s == [] || (s[0] != '-' && s[|s| - 1] != '-')
    ensures StripHyphens(s) == s
  {
    assert DropLeadingHyphens(s) == s;
    assert DropTrailingHyphens(s) == s;
  }

  lemma ToLowerSlugChars(s: string)
    requires AllSlugChars(s)
    ensures ToLower(s) == s
  {
  }

  /** Slugging an already generated slug changes nothing. */
  lemma SlugOfIdempotent(text: string)
    ensures SlugOf(SlugOf(text)) == SlugOf(text)
  {
    var s := SlugOf(text);
    SlugOfWellFormed(text);
    ToLowerSlugChars(s);
    RawSlugOfSlugChars(s);
    StripHyphensUnchanged(s);
  }

  /** The loop consumes one more character. */
  lemma RawSlugPrefix(t: string, k: nat)
    requires k < |t|
    ensures RawSlug(t[..k + 1]) == Step(RawSlug(t[..k]), t[k])
  {
    assert t[..k + 1][..k] == t[..k];
  }

  /** Only the ASCII capitals change. */
  lemma LowerExample()
    ensures ToLower("My Product!") == "my product!"
  {
    var u := "My Product!";
    var e := "my product!";
    forall i | 0 <= i < |u|
      ensures LowerChar(u[i]) == e[i]
    {
      if i != 0 && i != 3 {
        assert !IsAsciiUpper(u[i]);
      }
    }
    ToLowerEach(u, e);
  }

  /** Punctuation is dropped and the space becomes '-'. */
  lemma SlugExampleProductName()
    ensures SlugOf("My Product!") == "my-product"
  {
    LowerExample();
    RawExample();
    StripHyphensUnchanged("my-product");
  }

  /** The loop over the lower-cased example, one character at a time. */
  lemma RawExample()
    ensures RawSlug("my product!") == "my-product"
  {
    var t := "my product!";
    assert t[..0] == [];
    RawSlugPrefix(t, 0);
    assert RawSlug(t[..1]) == "m";
    RawSlugPrefix(t, 1);
    assert RawSlug(t[..2]) == "my";
    RawSlugPrefix(t, 2);
    assert RawSlug(t[..3]) == "my-";
    RawSlugPrefix(t, 3);
    assert RawSlug(t[..4]) == "my-p";
    RawSlugPrefix(t, 4);
    assert RawSlug(t[..5]) == "my-pr";
    RawSlugPrefix(t, 5);
    assert RawSlug(t[..6]) == "my-pro";
    RawSlugPrefix(t, 6);
    assert RawSlug(t[..7]) == "my-prod";
    RawSlugPrefix(t, 7);
    assert RawSlug(t[..8]) == "my-produ";
    RawSlugPrefix(t, 8);
    assert RawSlug(t[..9]) == "my-produc";
    RawSlugPrefix(t, 9);
    assert RawSlug(t[..10]) == "my-product";
    RawSlugPrefix(t, 10);
    assert RawSlug(t[..11]) == "my-product";
    assert t[..11] == t;
  }

  /** White space only gives the fallback. */
  lemma SlugExampleBlank()
    ensures SlugOf("   ") == "untitled"
  {
    var t := "   ";
    assert ToLower(t) == t;
    assert t[..2][..1][..0] == [];
    assert RawSlug(t[..2][..1]) == "-";
    assert RawSlug(t[..2]) == "-";
    assert RawSlug(t) == "-";
    assert DropLeadingHyphens("-") == [];
  }

  /** Typed hyphens are kept, so '--' survives, and a space after '-' adds nothing. */
  lemma SlugExampleHyphens()
    ensures SlugOf("a--b") == "a--b"
    ensures SlugOf("a - b") == "a--b"
  {
    assert AllSlugChars("a--b");
    ToLowerSlugChars("a--b");
    RawSlugOfSlugChars("a--b");
    StripHyphensUnchanged("a--b");
    var t := "a - b";
    forall i | 0 <= i < |t|
      ensures LowerChar(t[i]) == t[i]
    {
      assert !IsAsciiUpper(t[i]);
    }
    ToLowerEach(t, t);
    RawExampleSpaced();
  }

  /** The loop over "a - b": the space after '-' adds nothing. */
  lemma RawExampleSpaced()
    ensures RawSlug("a - b") == "a--b"
  {
    var t := "a - b";
    assert t[..0] == [];
    RawSlugPrefix(t, 0);
    assert RawSlug(t[..1]) == "a";
    RawSlugPrefix(t, 1);
    assert RawSlug(t[..2]) == "a-";
    RawSlugPrefix(t, 2);
    assert RawSlug(t[..3]) == "a--";
    RawSlugPrefix(t, 3);
    assert RawSlug(t[..4]) == "a--";
    RawSlugPrefix(t, 4);
    assert RawSlug(t[..5]) == "a--b";
    assert t[..5] == t;
  }

  /** The loop of `generateSlug`, over the lower-cased text. */
  method GenerateSlug(text: string) returns (slug: string)
    ensures slug == SlugOf(text)
  {
    var normalized := ToLower(text);
    slug := [];
    var i := 0;
    while i < |normalized|
      invariant 0 <= i <= |normalized|
      invariant slug == RawSlug(normalized[..i])
    {
      var c := normalized[i];
      if SlugChar(c) {
        slug := slug + [c];
      } else if c == ' ' {
        if slug == [] || slug[|slug| - 1] != '-' {
          slug := slug + ['-'];
        }
      }
      assert normalized[..i + 1][..i] == normalized[..i];
      i := i + 1;
    }
    assert normalized[..i] == normalized;
    slug := StripHyphens(slug);
    if slug == [] {
      slug := "untitled";
    }
  }
}
