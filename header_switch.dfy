/** Whether the global header is shown for a route path. */
module HeaderSwitch {
  import opened Strings

  /** `HIDE_ON_PREFIXES`: the routes under which the header is hidden. */
  const HideOnPrefixes: seq<string> := ["/professional_resume"]

  /** A path matches a prefix when it is the prefix itself or lies below it. */
  predicate Under(path: string, prefix: string) {
    path == prefix || StartsWith(path, prefix + "/")
  }

  /** `prefixes.some(p => pathname === p || pathname.startsWith(p + "/"))`. */
  function AnyUnder(prefixes: seq<string>, path: string): (r: bool)
    ensures r <==> exists p :: p in prefixes && Under(path, p)
  {
    if prefixes == [] then false
    else Under(path, prefixes[0]) || AnyUnder(prefixes[1..], path)
  }

  /** `shouldHide`. */
  function ShouldHide(path: string): bool {
    AnyUnder(HideOnPrefixes, path)
  }

  /** What the component renders. */
  datatype Rendered = Nothing | Header

  function Render(path: string): (r: Rendered)
    ensures r == Nothing <==> ShouldHide(path)
    ensures r == Header <==> !ShouldHide(path)
  {
    if ShouldHide(path) then Nothing else Header
  }

  /** The header is hidden exactly on the resume route and below it. */
  lemma HiddenExactly(path: string)
    ensures ShouldHide(path) <==> path == "/professional_resume" || StartsWith(path, "/professional_resume/")
  {
    assert HideOnPrefixes[0] + "/" == "/professional_resume/";
  }

  lemma ResumeHidden(rest: string)
    ensures Render("/professional_resume") == Nothing
    ensures Render("/professional_resume/" + rest) == Nothing
  {
    HiddenExactly("/professional_resume");
    HiddenExactly("/professional_resume/" + rest);
    assert ("/professional_resume/" + rest)[..|"/professional_resume/"|] == "/professional_resume/";
  }

  /** A path sharing the prefix without a `/` boundary keeps the header. */
  lemma SiblingShown()
    ensures Render("/professional_resume_old") == Header
  {
    HiddenExactly("/professional_resume_old");
    assert "/professional_resume_old"[20] != "/professional_resume/"[20];
  }

  lemma OtherRoutesShown()
    ensures Render("/") == Header && Render("/about") == Header
  {
    HiddenExactly("/");
    HiddenExactly("/about");
  }

  /** Listing more prefixes can only hide more paths. */
  lemma MorePrefixesHideMore(a: seq<string>, b: seq<string>, path: string)
    requires forall p :: p in a ==> p in b
    ensures AnyUnder(a, path) ==> AnyUnder(b, path)
  {
  }
}
