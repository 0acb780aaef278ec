/** The site header's navigation (frontend/src/components/Header.jsx): which link
    is highlighted for the current path, and when the header counts as scrolled. */
module Navigation {
  import opened Text

  const Root: string := "/"

  /** `isActive(path)` on the current pathname: the root link only on the root
      itself, any other link on every pathname that starts with it. */
  predicate IsActive(path: string, pathname: string)
  {
    (path == Root && pathname == Root) || (path != Root && StartsWith(pathname, path))
  }

  /** The root link is active exactly on `/`. */
  lemma RootActiveIff(pathname: string)
    ensures IsActive(Root, pathname) <==> pathname == Root
  {
  }

  /** Any other link is active exactly on the pathnames that start with it, its own included. */
  lemma OtherActiveIff(path: string, pathname: string)
    requires path != Root
    ensures IsActive(path, pathname) <==> StartsWith(pathname, path)
    ensures IsActive(path, path)
  {
    assert path[..|path|] == path;
  }

  /** The root link is not active on `/team`. */
  lemma RootNotActiveOnTeam()
    ensures !IsActive(Root, "/team")
  {
  }

  /** The prefix test is on characters, so `/team` is active on `/teammates`. */
  lemma PrefixIsOnCharacters()
    ensures IsActive("/team", "/teammates")
  {
    assert "/teammates"[..5] == "/team";
  }

  const ScrollThreshold: int := 50

  /** `handleScroll`: scrolled exactly when `scrollY > 50`. */
  predicate IsScrolled(scrollY: real)
  {
    scrollY > ScrollThreshold as real
  }

  lemma ScrolledBoundary()
    ensures !IsScrolled(50.0) && IsScrolled(50.5) && !IsScrolled(0.0)
  {
  }

  /** Scrolling further down never clears the flag. */
  lemma ScrolledMonotone(a: real, b: real)
    requires a <= b && IsScrolled(a)
    ensures IsScrolled(b)
  {
  }
}
