/** The navigation highlight rule of the web client's application shell. */
module AppShell {
  import Text

  /** Whether the navigation entry `href` is highlighted on page `pathname`. */
  predicate IsActive(pathname: string, href: string) {
    if href == "/" then pathname == "/"
    else pathname == href || Text.StartsWith(pathname, href + "/")
  }

  /** The root entry is highlighted on the root page only. */
  lemma RootOnlyExact(pathname: string)
    ensures IsActive(pathname, "/") <==> pathname == "/"
  {
  }

  /** Any other entry is highlighted on its own page and on the pages below it, and
      nowhere else: the character after the prefix must be a '/'. */
  lemma ActiveIffSelfOrBelow(pathname: string, href: string)
    requires href != "/"
    ensures IsActive(pathname, href) <==>
              pathname == href
              || (|pathname| > |href| && pathname[..|href|] == href && pathname[|href|] == '/')
  {
    if |pathname| > |href| && pathname[..|href|] == href && pathname[|href|] == '/' {
      assert pathname[..|href| + 1] == href + "/";
    }
    if Text.StartsWith(pathname, href + "/") {
      assert pathname[..|href|] == (href + "/")[..|href|];
    }
  }

  /** A sibling that merely shares the prefix, such as "/ticketsX" for "/tickets",
      is not highlighted. */
  lemma SiblingNotActive(href: string, c: char, rest: string)
    requires href != "/" && c != '/'
    ensures !IsActive(href + [c] + rest, href)
  {
    ActiveIffSelfOrBelow(href + [c] + rest, href);
    assert (href + [c] + rest)[|href|] == c;
  }
}
