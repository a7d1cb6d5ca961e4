/** The site header: the search box's target URL and which menu entries a
    visitor sees (src/components/shared/Navbar.js). Percent-encoding is a
    parameter. */
module Navbar {
  import opened Seqs
  import opened Text
  import opened Js
  import opened Auth
  import opened DashboardLayout

  const ProductsPath := "/products"
  const QueryPrefix := "/products?q="

  /** `handleSearch`'s destination: the trimmed term, encoded, as `?q=` when
      it is not blank; the plain listing otherwise. */
  function SearchTarget(term: string, encode: string -> string): (r: string)
    ensures !AllSpace(term) ==> r == QueryPrefix + encode(Trim(term))
    ensures AllSpace(term) ==> r == ProductsPath
  {
    if Trim(term) != "" then QueryPrefix + encode(Trim(term)) else ProductsPath
  }

  /** The header's own state. */
  class Header {
    var searchTerm: string
    var mobileMenuOpen: bool

    constructor ()
      ensures searchTerm == "" && !mobileMenuOpen
    {
      searchTerm := "";
      mobileMenuOpen := false;
    }

    method SetSearchTerm(term: string)
      modifies this`searchTerm
      ensures searchTerm == term
    {
      searchTerm := term;
    }

    method SetMenuOpen(open: bool)
      modifies this`mobileMenuOpen
      ensures mobileMenuOpen == open
    {
      mobileMenuOpen := open;
    }

    /** `handleSearch`: returns where the router is sent, and closes the
        mobile menu whatever the term. */
    method HandleSearch(encode: string -> string) returns (target: string)
      modifies this`mobileMenuOpen
      ensures target == SearchTarget(searchTerm, encode)
      ensures !mobileMenuOpen
    {
      var trimmed := Trim(searchTerm);
      if trimmed != "" {
        target := QueryPrefix + encode(trimmed);
      } else {
        target := ProductsPath;
      }
      mobileMenuOpen := false;
    }
  }

  /** The cart shows to visitors without a session and to buyers. */
  predicate ShowsCart(user: Option<AppUser>) {
    user.None? || user.value.role == Str("buyer")
  }

  /** The account menu's My Orders entry, for buyers. */
  predicate ShowsOrdersEntry(u: AppUser) {
    u.role == Str("buyer")
  }

  /** What a signed-in user's header offers: the cart, the Dashboard entry
      (verified artisans) and the My Orders entry. The Dashboard entry shows
      exactly when the dashboard itself would render. */
  datatype MenuView = MenuView(cart: bool, dashboard: bool, orders: bool)

  function MenuFor(u: AppUser): (v: MenuView)
    ensures v.dashboard <==> RendersDashboard(false, Some(u))
    ensures v.cart <==> u.role == Str("buyer")
    ensures v.orders <==> u.role == Str("buyer")
    ensures !(v.dashboard && v.orders)
    ensures v.dashboard ==> DashboardRedirect(false, Some(u)).None?
  {
    MenuView(ShowsCart(Some(u)), IsVerifiedArtisan(u), ShowsOrdersEntry(u))
  }
}
