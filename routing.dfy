/**
 * What the two middleware policies share: their decision and the path matcher
 * that decides which requests reach them at all.
 */
module Routing {
  /** Let the request through, or redirect it to the page at `target`. */
  datatype Decision = Next | Redirect(target: string)

  predicate StartsWith(s: string, prefix: string)
  {
    |prefix| <= |s| && s[..|prefix|] == prefix
  }

  /** The alternatives of the matcher's negative lookahead, following the leading `/`. */
  const MatcherExclusions: seq<string> := ["api", "_next/static", "_next/image", "favicon.ico"]

  /**
   * The matcher `/((?!api|_next/static|_next/image|favicon.ico).*)`: a path
   * starting with `/` whose remainder starts with none of the exclusions, so that
   * exactly the paths starting with `/api`, `/_next/static`, `/_next/image` or
   * `/favicon.ico` are skipped. The `.` in `favicon.ico` is taken literally.
   */
  predicate Matched(pathname: string)
    ensures Matched(pathname) <==>
      && |pathname| >= 1 && pathname[0] == '/'
      && !StartsWith(pathname, "/api") && !StartsWith(pathname, "/_next/static")
      && !StartsWith(pathname, "/_next/image") && !StartsWith(pathname, "/favicon.ico")
  {
    if |pathname| >= 1 && pathname[0] == '/' then
      StartsWithAfterSlash(pathname, "api");
      StartsWithAfterSlash(pathname, "_next/static");
      StartsWithAfterSlash(pathname, "_next/image");
      StartsWithAfterSlash(pathname, "favicon.ico");
      assert "/" + "api" == "/api";
      assert "/" + "_next/static" == "/_next/static";
      assert "/" + "_next/image" == "/_next/image";
      assert "/" + "favicon.ico" == "/favicon.ico";
      forall e :: e in MatcherExclusions ==> !StartsWith(pathname[1..], e)
    else false
  }

  /** A prefix of the remainder after `/` is a prefix of the path with the `/` added. */
  lemma StartsWithAfterSlash(pathname: string, e: string)
    requires |pathname| >= 1 && pathname[0] == '/'
    ensures StartsWith(pathname[1..], e) <==> StartsWith(pathname, "/" + e)
  {
    if StartsWith(pathname, "/" + e) {
      assert pathname[1..][..|e|] == ("/" + e)[1..];
    }
    if StartsWith(pathname[1..], e) {
      assert pathname[..|e| + 1] == [pathname[0]] + pathname[1..][..|e|];
    }
  }

  /** Strings that differ in their first character are not prefixes of one another. */
  lemma FirstCharacterDiffers(s: string, prefix: string)
    requires |s| > 0 && |prefix| > 0 && s[0] != prefix[0]
    ensures !StartsWith(s, prefix)
  {
  }

  /** A path whose second character begins no exclusion is matched. */
  lemma MatchedByFirstCharacter(pathname: string)
    requires |pathname| >= 2 && pathname[0] == '/'
    requires pathname[1] !in {'a', '_', 'f'}
    ensures Matched(pathname)
  {
    forall e | e in MatcherExclusions ensures !StartsWith(pathname[1..], e) {
      FirstCharacterDiffers(pathname[1..], e);
    }
  }

  /** The application's pages reach the middleware. */
  lemma MatcherHandlesPages()
    ensures Matched("/") && Matched("/login") && Matched("/intake")
  {
    MatchedByFirstCharacter("/login");
    MatchedByFirstCharacter("/intake");
  }
}
