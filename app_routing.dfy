/**
 * The application shell: the current page follows `location.hash`, and the
 * page name selects what is rendered.
 */
module App {

  /** What the shell renders. */
  datatype Screen = PrivacyPolicyOnly | CookiePolicyOnly | BannerAndLanding

  /** `handleHashChange`: the hash minus its first character, or `home` when nothing is left. */
  function PageFromHash(hash: string): (page: string)
    ensures page != ""
    ensures |hash| > 1 ==> page == hash[1..]
    ensures |hash| <= 1 ==> page == "home"
  {
    var rest := if hash == "" then "" else hash[1..];
    if rest == "" then "home" else rest
  }

  /** The page-selection branches. */
  function ScreenFor(page: string): (s: Screen)
    ensures s == PrivacyPolicyOnly <==> page == "privacy-policy"
    ensures s == CookiePolicyOnly <==> page == "cookie-policy"
    ensures s == BannerAndLanding <==> page != "privacy-policy" && page != "cookie-policy"
  {
    if page == "privacy-policy" then PrivacyPolicyOnly
    else if page == "cookie-policy" then CookiePolicyOnly
    else BannerAndLanding
  }

  /**
   * The page after the `hashchange` listener has run on each hash of
   * `hashes` in turn: one `Shell.HandleHashChange` call per hash.
   */
  function AfterHashChanges(page: string, hashes: seq<string>): string
    decreases |hashes|
  {
    if hashes == [] then page else AfterHashChanges(PageFromHash(hashes[0]), hashes[1..])
  }

  class Shell {
    var currentPage: string

    /** First render, before the mount effect runs. */
    constructor ()
      ensures currentPage == "home"
      ensures View() == BannerAndLanding
    {
      currentPage := "home";
    }

    /** `handleHashChange`, run once on mount and on every `hashchange` event. */
    method HandleHashChange(hash: string)
      modifies this
      ensures currentPage == PageFromHash(hash)
      ensures currentPage == AfterHashChanges(old(currentPage), [hash])
    {
      currentPage := PageFromHash(hash);
    }

    function View(): Screen
      reads this
    {
      ScreenFor(currentPage)
    }
  }

  /**
   * Over any series of `hashchange` events, only the latest hash decides
   * the page, whatever the page was before.
   */
  lemma {:induction false} LatestHashDecides(page: string, hashes: seq<string>)
    requires hashes != []
    ensures AfterHashChanges(page, hashes) == PageFromHash(hashes[|hashes| - 1])
    decreases |hashes|
  {
    if |hashes| > 1 {
      LatestHashDecides(PageFromHash(hashes[0]), hashes[1..]);
    }
  }

  /** An empty hash, or `#` alone, shows the landing page with the banner. */
  lemma EmptyHashIsHome(hash: string)
    requires |hash| <= 1
    ensures PageFromHash(hash) == "home"
    ensures ScreenFor(PageFromHash(hash)) == BannerAndLanding
  {
  }

  /** `#privacy-policy` and `#cookie-policy` select the two policy pages, and nothing else does. */
  lemma PolicyHashes(hash: string)
    ensures ScreenFor(PageFromHash(hash)) == PrivacyPolicyOnly <==> |hash| > 1 && hash[1..] == "privacy-policy"
    ensures ScreenFor(PageFromHash(hash)) == CookiePolicyOnly <==> |hash| > 1 && hash[1..] == "cookie-policy"
  {
  }

  /** Any other hash, `#home` and unknown names alike, shows the landing page with the banner. */
  lemma UnknownHashIsLanding(hash: string)
    requires |hash| > 1 && hash[1..] != "privacy-policy" && hash[1..] != "cookie-policy"
    ensures ScreenFor(PageFromHash(hash)) == BannerAndLanding
  {
  }
}
