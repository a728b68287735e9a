/** Application constants and page titles (`src/config/app.ts`). */
module AppConfig {
  import opened Base

  const AppName := "Metis"

  /** The separator between a page's own title and the application name. */
  const TitleSeparator := " | "

  /** `getPageTitle`: a missing or empty title falls back to the bare name. */
  function PageTitle(pageTitle: Option<string>): (r: string)
    ensures pageTitle.None? || pageTitle.value == "" ==> r == AppName
    ensures pageTitle.Some? && pageTitle.value != "" ==>
              r == pageTitle.value + TitleSeparator + AppName
    ensures |r| >= |AppName| && r[|r| - |AppName|..] == AppName
  {
    if pageTitle.Some? && pageTitle.value != "" then pageTitle.value + TitleSeparator + AppName else AppName
  }

  /** The page's own title can be read back from the full title, so two
      pages get the same title only when they have the same title text;
      and a page with a title never shows the bare name. */
  lemma PageTitleRecoversTitle(t: string, u: string)
    requires t != "" && u != ""
    ensures PageTitle(Some(t))[..|t|] == t
    ensures PageTitle(Some(t)) == PageTitle(Some(u)) <==> t == u
    ensures PageTitle(Some(t)) != PageTitle(None)
  {
    var a, b := PageTitle(Some(t)), PageTitle(Some(u));
    assert a[..|t|] == t;
    if a == b {
      assert |t| == |u|;
      assert b[..|u|] == u;
    }
  }
}
