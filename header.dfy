/** The site header: the cart badge, the desktop search box, and the mobile menu with its
    own search box. The menu is open or closed; the toggle flips it, the close controls and
    the Escape key close it, the toolbar's search button opens it, and a successful mobile
    search closes it. */
module Header {
  import opened Wrappers
  import opened Text
  import opened QueryParams
  import ProductsPage

  /** The badge on the cart button: hidden for an empty cart, "99+" above 99, the count
      otherwise. The label never takes more than three characters. */
  function CartBadge(itemCount: int): (badge: Option<string>)
    ensures badge.Some? <==> itemCount > 0
    ensures badge == Some("99+") <==> itemCount > 99
    ensures 0 < itemCount <= 99 ==> badge == Some(NatToString(itemCount))
    ensures badge.Some? ==> 1 <= |badge.value| <= 3
  {
    if itemCount <= 0 then None
    else if itemCount > 99 then Some("99+")
    else
      NatToStringBelowHundred(itemCount);
      var s := NatToString(itemCount);
      assert s != "99+" by { assert |s| <= 2; }
      Some(s)
  }

  /** The number under the badge reads back as the item count. */
  lemma CartBadgeReadsBack(itemCount: int)
    requires 0 < itemCount <= 99
    ensures DigitsValue(CartBadge(itemCount).value) == itemCount
  {
    NatToStringRoundTrip(itemCount);
  }

  // ---------------------------------------------------------------------------
  // The mobile menu

  datatype MenuEvent =
    | Toggle            // the menu button
    | Close             // the backdrop, the close button, and every link in the menu
    | Key(key: string)  // a key press
    | OpenForSearch     // the toolbar's search button
    | SearchSubmitted   // a mobile search with a non-blank term

  /** How one event changes whether the menu is open. A key press other than Escape changes
      nothing, and so does Escape while the menu is closed (the listener is attached only
      while it is open). */
  function MenuStep(open: bool, e: MenuEvent): bool {
    match e
    case Toggle => !open
    case Close => false
    case Key(k) => if open && k == "Escape" then false else open
    case OpenForSearch => true
    case SearchSubmitted => false
  }

  function MenuRun(open: bool, es: seq<MenuEvent>): bool
    decreases |es|
  {
    if es == [] then open else MenuRun(MenuStep(open, es[0]), es[1..])
  }

  function Toggles(n: nat): seq<MenuEvent> {
    seq(n, i => Toggle)
  }

  /** Running events one after another: a run split in two is the second part run from where
      the first part left the menu. */
  lemma {:induction false} MenuRunAppend(open: bool, a: seq<MenuEvent>, b: seq<MenuEvent>)
    ensures MenuRun(open, a + b) == MenuRun(MenuRun(open, a), b)
    decreases |a|
  {
    if a == [] {
      assert a + b == b;
    } else {
      assert (a + b)[0] == a[0] && (a + b)[1..] == a[1..] + b;
      MenuRunAppend(MenuStep(open, a[0]), a[1..], b);
    }
  }

  /** Pressing the menu button n times leaves the menu as it was exactly when n is even. */
  lemma {:induction false} ToggleParity(open: bool, n: nat)
    ensures MenuRun(open, Toggles(n)) == (if n % 2 == 0 then open else !open)
    decreases n
  {
    if n > 0 {
      assert Toggles(n)[0] == Toggle && Toggles(n)[1..] == Toggles(n - 1);
      ToggleParity(!open, n - 1);
    }
  }

  /** Whatever happened before, closing leaves the menu closed. */
  lemma {:induction false} CloseEndsClosed(open: bool, es: seq<MenuEvent>)
    ensures MenuRun(open, es + [Close]) == false
    ensures MenuRun(open, es + [Key("Escape")]) == false
  {
    MenuRunAppend(open, es, [Close]);
    MenuRunAppend(open, es, [Key("Escape")]);
  }

  /** A message the header shows. */
  datatype Toast = Success(message: string) | Error(message: string) | Info(message: string)

  /** The URL a search navigates to: the catalog with the trimmed term as its only
      parameter. */
  function SearchUrl(query: string): (url: Params)
    ensures Get(url, "search") == Some(Trim(query)) && Count(url, "search") == 1
    ensures forall k :: k != "search" ==> !Has(url, k)
  {
    Set([], "search", Trim(query))
  }

  /** The catalog reached from a header search lists exactly the products whose name,
      description or brand contains the trimmed term, ignoring case. */
  lemma SearchLandsOnCatalog(query: string, p: ProductsPage.Product)
    requires !AllSpace(query)
    ensures var q := ProductsPage.SearchParams(None, None, Get(SearchUrl(query), "search"), None, None, None);
      ProductsPage.Wanted(q, p) <==>
        || ContainsIgnoringCase(p.name, Trim(query))
        || ContainsIgnoringCase(p.description, Trim(query))
        || ContainsIgnoringCase(p.brand, Trim(query))
  {
    TrimEmptyIffBlank(query);
  }

  /** A link of the mobile menu: where it goes and the message it shows. */
  datatype MenuLink = MenuLink(caption: string, href: string, toast: Toast)

  /** The menu's five navigation links, then its two quick actions. */
  const MenuLinks: seq<MenuLink> := [
    MenuLink("Home", "/", Success("Going to Home")),
    MenuLink("Products", "/products", Success("Browsing Products")),
    MenuLink("Categories", "/categories", Success("Exploring Categories")),
    MenuLink("Orders", "/orders", Success("Checking Orders")),
    MenuLink("About", "/about", Success("Learning About Us")),
    MenuLink("My Orders", "/orders", Success("Opening My Orders")),
    MenuLink("Help & Support", "/support", Info("Help & Support coming soon!"))
  ]

  /** Every menu link confirms with a success message, except Help & Support, which only
      announces that the page is not there yet; the two orders links share their target. */
  lemma MenuLinksConfirm()
    ensures forall i :: 0 <= i < |MenuLinks| ==>
      (MenuLinks[i].toast.Success? <==> MenuLinks[i].href != "/support")
    ensures forall i :: 0 <= i < |MenuLinks| ==> !MenuLinks[i].toast.Error?
    ensures forall i, j :: 0 <= i < j < |MenuLinks| && MenuLinks[i].href == MenuLinks[j].href ==>
      MenuLinks[i].href == "/orders"
  {
  }

  /** The header's state. */
  class HeaderState {
    var searchQuery: string
    var mobileSearchQuery: string
    var isMobileMenuOpen: bool

    constructor ()
      ensures searchQuery == "" && mobileSearchQuery == "" && !isMobileMenuOpen
    {
      searchQuery := "";
      mobileSearchQuery := "";
      isMobileMenuOpen := false;
    }

    method SetSearchQuery(q: string)
      modifies this
      ensures searchQuery == q
      ensures mobileSearchQuery == old(mobileSearchQuery) && isMobileMenuOpen == old(isMobileMenuOpen)
    {
      searchQuery := q;
    }

    method SetMobileSearchQuery(q: string)
      modifies this
      ensures mobileSearchQuery == q
      ensures searchQuery == old(searchQuery) && isMobileMenuOpen == old(isMobileMenuOpen)
    {
      mobileSearchQuery := q;
    }

    /** `handleSearch`: navigates to the catalog exactly when the query is not blank, with
        the trimmed query as the search term; the header's state is untouched. */
    method HandleSearch() returns (nav: Option<Params>)
      ensures nav.Some? <==> !AllSpace(searchQuery)
      ensures nav.Some? ==> nav.value == SearchUrl(searchQuery) && Trim(nav.value[0].value) == nav.value[0].value
      ensures nav.Some? ==> Get(nav.value, "search") != Some("")
    {
      TrimEmptyIffBlank(searchQuery);
      if Trim(searchQuery) != "" {
        TrimIdempotent(searchQuery);
        nav := Some(SearchUrl(searchQuery));
      } else {
        nav := None;
      }
    }

    /** `handleMobileSearch`: with a non-blank query it navigates, closes the menu, clears
        the query and confirms the search; with a blank one it only reports an error and
        leaves the menu and the query as they were. */
    method HandleMobileSearch() returns (nav: Option<Params>, toast: Toast)
      modifies this
      ensures nav.Some? <==> !AllSpace(old(mobileSearchQuery))
      ensures nav.Some? ==>
        && nav.value == SearchUrl(old(mobileSearchQuery))
        && isMobileMenuOpen == MenuStep(old(isMobileMenuOpen), SearchSubmitted) == false
        && mobileSearchQuery == ""
        && toast == Success("Searching for \"" + Trim(old(mobileSearchQuery)) + "\"")
      ensures nav.None? ==>
        && isMobileMenuOpen == old(isMobileMenuOpen)
        && mobileSearchQuery == old(mobileSearchQuery)
        && toast == Error("Please enter a search term")
      ensures searchQuery == old(searchQuery)
    {
      TrimEmptyIffBlank(mobileSearchQuery);
      var term := Trim(mobileSearchQuery);
      if term != "" {
        nav := Some(SearchUrl(mobileSearchQuery));
        isMobileMenuOpen := false;
        mobileSearchQuery := "";
        toast := Success("Searching for \"" + term + "\"");
      } else {
        nav := None;
        toast := Error("Please enter a search term");
      }
    }

    /** `toggleMobileMenu`. */
    method ToggleMobileMenu()
      modifies this
      ensures isMobileMenuOpen == MenuStep(old(isMobileMenuOpen), Toggle) == !old(isMobileMenuOpen)
      ensures searchQuery == old(searchQuery) && mobileSearchQuery == old(mobileSearchQuery)
    {
      isMobileMenuOpen := !isMobileMenuOpen;
    }

    /** `closeMobileMenu`, used by the backdrop, the close button and every menu link. */
    method CloseMobileMenu()
      modifies this
      ensures isMobileMenuOpen == MenuStep(old(isMobileMenuOpen), Close) == false
      ensures searchQuery == old(searchQuery) && mobileSearchQuery == old(mobileSearchQuery)
    {
      isMobileMenuOpen := false;
    }

    /** Following a menu link closes the menu, goes to the link's page and shows its
        message. */
    method FollowMenuLink(i: nat) returns (target: string, toast: Toast)
      requires i < |MenuLinks|
      modifies this
      ensures isMobileMenuOpen == MenuStep(old(isMobileMenuOpen), Close) == false
      ensures target == MenuLinks[i].href && toast == MenuLinks[i].toast
      ensures searchQuery == old(searchQuery) && mobileSearchQuery == old(mobileSearchQuery)
    {
      CloseMobileMenu();
      target := MenuLinks[i].href;
      toast := MenuLinks[i].toast;
    }

    /** A key press while the Escape listener may be attached. */
    method KeyDown(key: string)
      modifies this
      ensures isMobileMenuOpen == MenuStep(old(isMobileMenuOpen), Key(key))
      ensures key == "Escape" ==> !isMobileMenuOpen
      ensures key != "Escape" ==> isMobileMenuOpen == old(isMobileMenuOpen)
      ensures searchQuery == old(searchQuery) && mobileSearchQuery == old(mobileSearchQuery)
    {
      if isMobileMenuOpen && key == "Escape" {
        isMobileMenuOpen := false;
      }
    }

    /** The toolbar's search button opens the menu and points to its search box. */
    method OpenSearchFromToolbar() returns (toast: Toast)
      modifies this
      ensures isMobileMenuOpen == MenuStep(old(isMobileMenuOpen), OpenForSearch) == true
      ensures toast == Info("Use the search bar in the menu")
      ensures searchQuery == old(searchQuery) && mobileSearchQuery == old(mobileSearchQuery)
    {
      isMobileMenuOpen := true;
      toast := Info("Use the search bar in the menu");
    }
  }
}
