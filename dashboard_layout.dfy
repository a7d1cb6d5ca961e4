/** The seller dashboard's guard and its navigation highlight
    (src/app/layout.js). */
module DashboardLayout {
  import opened Seqs
  import opened Js
  import opened Auth

  /** A verified artisan: role 'artisan' and a truthy `isVerifiedArtisan`. */
  predicate IsVerifiedArtisan(u: AppUser) {
    u.role == Str("artisan") && Truthy(u.isVerifiedArtisan)
  }

  /** The dashboard renders only once loading is over and the user is a
      verified artisan; otherwise the loader shows. */
  predicate RendersDashboard(loading: bool, user: Option<AppUser>) {
    !loading && user.Some? && IsVerifiedArtisan(user.value)
  }

  /** The guard effect's redirect: none while loading; otherwise the first
      of login (no user), home (not an artisan) and verification (not yet
      verified) that applies. Exactly one target applies whenever loading
      is over and the dashboard does not render. */
  function DashboardRedirect(loading: bool, user: Option<AppUser>): (r: Option<string>)
    ensures loading ==> r.None?
    ensures r.Some? <==> !loading && !RendersDashboard(loading, user)
    ensures r == Some("/login") <==> !loading && user.None?
    ensures r == Some("/") <==> !loading && user.Some? && user.value.role != Str("artisan")
    ensures r == Some("/verification") <==>
      (!loading && user.Some? && user.value.role == Str("artisan") && !Truthy(user.value.isVerifiedArtisan))
  {
    if loading then None
    else if user.None? then Some("/login")
    else if user.value.role != Str("artisan") then Some("/")
    else if !Truthy(user.value.isVerifiedArtisan) then Some("/verification")
    else None
  }

  /** The sidebar's links. */
  const NavHrefs: seq<string> := ["/artisan-hub", "/artisan-hub/products", "/artisan-hub/orders",
                                  "/artisan-hub/brand-kit", "/artisan-hub/my-story"]

  function ActiveTest(pathname: string): string -> bool {
    (href: string) => pathname == href
  }

  /** The links drawn highlighted: those whose href equals the pathname.
      The hrefs are distinct, so at most one is. */
  function HighlightedLinks(pathname: string): (r: seq<string>)
    ensures forall h :: h in r <==> h in NavHrefs && h == pathname
    ensures r == (if pathname in NavHrefs then [pathname] else [])
  {
    var r := Filter(NavHrefs, ActiveTest(pathname));
    assert NoDuplicates(NavHrefs);
    if pathname in NavHrefs then
      assert r == [pathname] by {
        FilterSingle(NavHrefs, pathname);
      }
      r
    else
      assert r == [] by {
        FilterSingle(NavHrefs, pathname);
      }
      r
  }

  /** Filtering distinct strings for equality with one of them leaves that
      one alone, and leaves nothing when none equals it. */
  lemma {:induction false} FilterSingle(s: seq<string>, x: string)
    requires NoDuplicates(s)
    ensures Filter(s, ActiveTest(x)) == if x in s then [x] else []
  {
    if s != [] {
      assert NoDuplicates(s[1..]) by {
        forall i, j | 0 <= i < j < |s[1..]| ensures s[1..][i] != s[1..][j] {
          assert s[1..][i] == s[i + 1] && s[1..][j] == s[j + 1];
        }
      }
      FilterSingle(s[1..], x);
      if s[0] == x {
        assert x !in s[1..] by {
          forall k | 0 <= k < |s[1..]| ensures s[1..][k] != x {
            assert s[1..][k] == s[k + 1];
          }
        }
      }
    }
  }
}
