/** Which entry of the seller sidebar is highlighted for a path. */
module SellerLayout {
  import opened Common

  datatype NavItem = NavItem(name: string, href: string, current: bool)

  /** The `navigation` array for `pathname`: the dashboard and the last
      three entries match exactly, the products entry by prefix. */
  function Navigation(pathname: string): (nav: seq<NavItem>)
    ensures |nav| == 5
    ensures forall i :: 0 <= i < 5 ==> (nav[i].current ==> StartsWith(pathname, nav[i].href))
    ensures forall i :: 0 <= i < 5 && i != 1 ==> (nav[i].current <==> pathname == nav[i].href)
    ensures nav[1].current <==> StartsWith(pathname, nav[1].href)
  {
    [ NavItem("Dashboard", "/seller", pathname == "/seller"),
      NavItem("Products", "/seller/products", StartsWith(pathname, "/seller/products")),
      NavItem("Orders", "/seller/orders", pathname == "/seller/orders"),
      NavItem("Customizations", "/seller/customizations", pathname == "/seller/customizations"),
      NavItem("Analytics", "/seller/analytics", pathname == "/seller/analytics") ]
  }

  /** A page below the product list keeps the products entry highlighted. */
  lemma NestedProductPageIsCurrent(suffix: string)
    ensures Navigation("/seller/products" + suffix)[1].current
  {
    assert ("/seller/products" + suffix)[..16] == "/seller/products";
  }

  /** No path highlights two entries. */
  lemma AtMostOneCurrent(pathname: string, i: nat, j: nat)
    requires i < j < 5
    ensures !(Navigation(pathname)[i].current && Navigation(pathname)[j].current)
  {
    var nav := Navigation(pathname);
    if i == 1 {
      // the later entries are exact paths whose ninth character is not 'p'
      if nav[j].current {
        assert pathname[8] != 'p';
      }
    } else if nav[i].current {
      assert pathname == nav[i].href;
    }
  }
}
