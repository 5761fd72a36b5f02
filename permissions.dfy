/** Role-based access control: a fixed table of rules per role, the
    `hasPermission` decision in which `manage` is a wildcard action, and the
    `getRolePermissions` listing in which `manage` is shown as the four CRUD
    actions. */
module Permissions {
  import opened Common
  import opened Types

  datatype Action = View | Create | Update | Delete | Manage | Approve | Fulfill | Refund

  datatype Resource =
    | Users | SellerProfiles | Products | Orders | OrderItems | Categories
    | Reviews | Coupons | Analytics | Announcements | Wishlist | Cart

  /** A rule field holds either one value or a list of values. */
  datatype OneOrMany<T> = One(single: T) | Many(list: seq<T>)

  datatype Rule = Rule(action: OneOrMany<Action>, resource: OneOrMany<Resource>)

  /** One (action, resource) pair of the listing. */
  datatype Permission = Permission(action: Action, resource: Resource)

  /** `expand`: a single value becomes a one-element list, a list stays as it is. */
  function Expand<T>(v: OneOrMany<T>): (r: seq<T>)
    ensures v.One? ==> r == [v.single]
    ensures v.Many? ==> r == v.list
  {
    match v
    case One(x) => [x]
    case Many(xs) => xs
  }

  /** The resources admin's `manage` rule lists. */
  const AdminManaged: seq<Resource> :=
    [Users, SellerProfiles, Products, Orders, OrderItems, Categories, Reviews, Coupons, Analytics, Announcements]

  const AdminRules: seq<Rule> := [
    Rule(One(Manage), Many(AdminManaged)),
    Rule(One(Approve), Many([SellerProfiles, Products, Reviews])),
    Rule(One(Refund), Many([Orders]))
  ]

  const SellerRules: seq<Rule> := [
    Rule(Many([Create, Update, Delete, View]), Many([Products, Coupons])),
    Rule(Many([View, Fulfill, Update]), Many([Orders, OrderItems])),
    Rule(One(View), Many([Analytics])),
    Rule(One(Update), Many([SellerProfiles]))
  ]

  const CustomerRules: seq<Rule> := [
    Rule(Many([View, Create, Update, Delete]), Many([Cart, Wishlist])),
    Rule(Many([Create, View]), Many([Orders])),
    Rule(Many([Create, View]), Many([Reviews])),
    Rule(One(View), Many([Products, Categories, Announcements]))
  ]

  /** The `permissions` table. */
  function Rules(role: Role): seq<Rule>
  {
    match role
    case Admin => AdminRules
    case Seller => SellerRules
    case Customer => CustomerRules
  }

  /** One rule allows `action` on `resource` when it lists the resource and
      lists the action or `manage`. */
  predicate RuleAllows(rule: Rule, action: Action, resource: Resource)
  {
    (Manage in Expand(rule.action) || action in Expand(rule.action)) && resource in Expand(rule.resource)
  }

  /** Access is granted when some rule of the role allows it; an undefined role
      (no signed-in user) has no rules. */
  predicate Granted(role: Option<Role>, action: Action, resource: Resource)
  {
    role.Some? && exists i | 0 <= i < |Rules(role.value)| :: RuleAllows(Rules(role.value)[i], action, resource)
  }

  /** `hasPermission`: scans the role's rules and stops at the first one that
      allows the request. */
  method HasPermission(role: Option<Role>, action: Action, resource: Resource) returns (allowed: bool)
    ensures role.None? ==> !allowed
    ensures allowed <==> role.Some? && exists i | 0 <= i < |Rules(role.value)| :: RuleAllows(Rules(role.value)[i], action, resource)
  {
    if role.None? {
      return false;
    }
    var rules := Rules(role.value);
    var i := 0;
    while i < |rules|
      invariant 0 <= i <= |rules|
      invariant forall k :: 0 <= k < i ==> !RuleAllows(rules[k], action, resource)
    {
      var actions := Expand(rules[i].action);
      var resources := Expand(rules[i].resource);
      var actionAllowed := Manage in actions || action in actions;
      var resourceAllowed := resource in resources;
      if actionAllowed && resourceAllowed {
        assert RuleAllows(rules[i], action, resource);
        return true;
      }
      i := i + 1;
    }
    return false;
  }

  // ---------------------------------------------------------------------
  // The table, spelled out, and what it grants

  predicate IsCrud(a: Action)
  {
    a == View || a == Create || a == Update || a == Delete
  }

  /** The access matrix written per role, independently of the rule scan. */
  predicate Matrix(role: Role, a: Action, r: Resource)
  {
    match role
    case Admin =>
      r != Cart && r != Wishlist
    case Seller =>
      ((r == Products || r == Coupons) && IsCrud(a))
      || ((r == Orders || r == OrderItems) && (a == View || a == Fulfill || a == Update))
      || (r == Analytics && a == View)
      || (r == SellerProfiles && a == Update)
    case Customer =>
      ((r == Cart || r == Wishlist) && IsCrud(a))
      || ((r == Orders || r == Reviews) && (a == Create || a == View))
      || ((r == Products || r == Categories || r == Announcements) && a == View)
  }

  /** Granted, for a role of three rules, is the disjunction of the three. */
  lemma GrantedThree(role: Role, a: Action, r: Resource)
    requires |Rules(role)| == 3
    ensures Granted(Some(role), a, r) <==>
      RuleAllows(Rules(role)[0], a, r) || RuleAllows(Rules(role)[1], a, r) || RuleAllows(Rules(role)[2], a, r)
  {
    if Granted(Some(role), a, r) {
      var i :| 0 <= i < 3 && RuleAllows(Rules(role)[i], a, r);
    }
  }

  /** Granted, for a role of four rules, is the disjunction of the four. */
  lemma GrantedFour(role: Role, a: Action, r: Resource)
    requires |Rules(role)| == 4
    ensures Granted(Some(role), a, r) <==>
      RuleAllows(Rules(role)[0], a, r) || RuleAllows(Rules(role)[1], a, r)
      || RuleAllows(Rules(role)[2], a, r) || RuleAllows(Rules(role)[3], a, r)
  {
    if Granted(Some(role), a, r) {
      var i :| 0 <= i < 4 && RuleAllows(Rules(role)[i], a, r);
    }
  }

  lemma AdminRule0(a: Action, r: Resource)
    ensures RuleAllows(AdminRules[0], a, r) <==> r != Cart && r != Wishlist
  {
  }

  lemma AdminRule1(a: Action, r: Resource)
    ensures RuleAllows(AdminRules[1], a, r) <==> (r == SellerProfiles || r == Products || r == Reviews) && a == Approve
  {
  }

  lemma AdminRule2(a: Action, r: Resource)
    ensures RuleAllows(AdminRules[2], a, r) <==> r == Orders && a == Refund
  {
  }

  lemma AdminMatrix(a: Action, r: Resource)
    ensures Granted(Some(Admin), a, r) <==> Matrix(Admin, a, r)
  {
    GrantedThree(Admin, a, r);
    AdminRule0(a, r);
    AdminRule1(a, r);
    AdminRule2(a, r);
  }

  lemma SellerRule0(a: Action, r: Resource)
    ensures RuleAllows(SellerRules[0], a, r) <==> (r == Products || r == Coupons) && IsCrud(a)
  {
  }

  lemma SellerRule1(a: Action, r: Resource)
    ensures RuleAllows(SellerRules[1], a, r) <==> (r == Orders || r == OrderItems) && (a == View || a == Fulfill || a == Update)
  {
  }

  lemma SellerRule2(a: Action, r: Resource)
    ensures RuleAllows(SellerRules[2], a, r) <==> r == Analytics && a == View
  {
  }

  lemma SellerRule3(a: Action, r: Resource)
    ensures RuleAllows(SellerRules[3], a, r) <==> r == SellerProfiles && a == Update
  {
  }

  lemma SellerMatrix(a: Action, r: Resource)
    ensures Granted(Some(Seller), a, r) <==> Matrix(Seller, a, r)
  {
    GrantedFour(Seller, a, r);
    SellerRule0(a, r);
    SellerRule1(a, r);
    SellerRule2(a, r);
    SellerRule3(a, r);
  }

  lemma CustomerRule0(a: Action, r: Resource)
    ensures RuleAllows(CustomerRules[0], a, r) <==> (r == Cart || r == Wishlist) && IsCrud(a)
  {
  }

  lemma CustomerRule1(a: Action, r: Resource)
    ensures RuleAllows(CustomerRules[1], a, r) <==> r == Orders && (a == Create || a == View)
  {
  }

  lemma CustomerRule2(a: Action, r: Resource)
    ensures RuleAllows(CustomerRules[2], a, r) <==> r == Reviews && (a == Create || a == View)
  {
  }

  lemma CustomerRule3(a: Action, r: Resource)
    ensures RuleAllows(CustomerRules[3], a, r) <==> (r == Products || r == Categories || r == Announcements) && a == View
  {
  }

  lemma CustomerMatrix(a: Action, r: Resource)
    ensures Granted(Some(Customer), a, r) <==> Matrix(Customer, a, r)
  {
    GrantedFour(Customer, a, r);
    CustomerRule0(a, r);
    CustomerRule1(a, r);
    CustomerRule2(a, r);
    CustomerRule3(a, r);
  }

  /** The rule scan grants exactly the matrix. */
  lemma GrantedIsMatrix(role: Role, a: Action, r: Resource)
    ensures Granted(Some(role), a, r) <==> Matrix(role, a, r)
  {
    match role
    case Admin => AdminMatrix(a, r);
    case Seller => SellerMatrix(a, r);
    case Customer => CustomerMatrix(a, r);
  }

  /** Admin's `manage` rule grants every action on its ten resources, including
      actions it never names such as `fulfill`. */
  lemma AdminManagesItsResources(a: Action, r: Resource)
    requires r in AdminManaged
    ensures Granted(Some(Admin), a, r)
  {
    assert RuleAllows(Rules(Admin)[0], a, r);
  }

  /** Admin holds no permission at all on carts and wishlists. */
  lemma AdminHasNoCartOrWishlist(a: Action)
    ensures !Granted(Some(Admin), a, Cart) && !Granted(Some(Admin), a, Wishlist)
  {
    AdminMatrix(a, Cart);
    AdminMatrix(a, Wishlist);
  }

  /** A seller fulfils orders and order items. */
  lemma SellerFulfilsOrders()
    ensures Granted(Some(Seller), Fulfill, Orders) && Granted(Some(Seller), Fulfill, OrderItems)
  {
    assert RuleAllows(Rules(Seller)[1], Fulfill, Orders);
    assert RuleAllows(Rules(Seller)[1], Fulfill, OrderItems);
  }

  /** A seller cannot delete orders or order items. */
  lemma SellerKeepsOrders()
    ensures !Granted(Some(Seller), Delete, Orders) && !Granted(Some(Seller), Delete, OrderItems)
  {
    SellerMatrix(Delete, Orders);
    SellerMatrix(Delete, OrderItems);
  }

  /** A seller has no right at all on users. */
  lemma SellerHasNoUserRights(a: Action)
    ensures !Granted(Some(Seller), a, Users)
  {
    SellerMatrix(a, Users);
  }

  /** On products, categories and announcements a customer may only view. */
  lemma CustomerOnlyViewsCatalogue(a: Action, r: Resource)
    requires r == Products || r == Categories || r == Announcements
    ensures Granted(Some(Customer), a, r) <==> a == View
  {
    CustomerMatrix(a, r);
  }

  // ---------------------------------------------------------------------
  // getRolePermissions

  /** `view`, `create`, `update`, `delete` on each resource in turn. */
  function CrudPairs(resources: seq<Resource>): seq<Permission>
  {
    if resources == [] then []
    else
      var r := resources[|resources| - 1];
      CrudPairs(resources[..|resources| - 1])
      + [Permission(View, r), Permission(Create, r), Permission(Update, r), Permission(Delete, r)]
  }

  /** One action on each resource in turn. */
  function PairsFor(a: Action, resources: seq<Resource>): seq<Permission>
  {
    if resources == [] then []
    else PairsFor(a, resources[..|resources| - 1]) + [Permission(a, resources[|resources| - 1])]
  }

  /** The pairs one rule contributes, action by action. */
  function ActionPairs(actions: seq<Action>, resources: seq<Resource>): seq<Permission>
  {
    if actions == [] then []
    else
      var a := actions[|actions| - 1];
      ActionPairs(actions[..|actions| - 1], resources)
      + (if a == Manage then CrudPairs(resources) else PairsFor(a, resources))
  }

  /** The pairs a list of rules contributes, rule by rule. */
  function RulePairs(rules: seq<Rule>): seq<Permission>
  {
    if rules == [] then []
    else
      var rule := rules[|rules| - 1];
      RulePairs(rules[..|rules| - 1]) + ActionPairs(Expand(rule.action), Expand(rule.resource))
  }

  /** `getRolePermissions`: nested loops over rules, actions and resources,
      pushing one pair at a time and writing `manage` as the four CRUD actions. */
  method GetRolePermissions(role: Role) returns (expanded: seq<Permission>)
    ensures expanded == RulePairs(Rules(role))
  {
    expanded := ExpandRules(Rules(role));
  }

  /** The loops of `getRolePermissions` over a given rule list. */
  method ExpandRules(rules: seq<Rule>) returns (expanded: seq<Permission>)
    ensures expanded == RulePairs(rules)
  {
    expanded := [];
    var i := 0;
    while i < |rules|
      invariant 0 <= i <= |rules|
      invariant expanded == RulePairs(rules[..i])
    {
      expanded := PushRule(expanded, Expand(rules[i].action), Expand(rules[i].resource));
      assert rules[..i + 1][..i] == rules[..i];
      i := i + 1;
    }
    assert rules[..i] == rules;
  }

  /** The loop over one rule's actions. */
  method PushRule(expanded: seq<Permission>, actions: seq<Action>, resources: seq<Resource>) returns (out: seq<Permission>)
    ensures out == expanded + ActionPairs(actions, resources)
  {
    out := expanded;
    var j := 0;
    while j < |actions|
      invariant 0 <= j <= |actions|
      invariant out == expanded + ActionPairs(actions[..j], resources)
    {
      var a := actions[j];
      if a == Manage {
        out := PushCrud(out, resources);
      } else {
        out := PushPairs(out, a, resources);
      }
      assert actions[..j + 1][..j] == actions[..j];
      j := j + 1;
    }
    assert actions[..j] == actions;
  }

  /** The innermost loop for a `manage` action: four CRUD pairs per resource. */
  method PushCrud(expanded: seq<Permission>, resources: seq<Resource>) returns (out: seq<Permission>)
    ensures out == expanded + CrudPairs(resources)
  {
    out := expanded;
    var k := 0;
    while k < |resources|
      invariant 0 <= k <= |resources|
      invariant out == expanded + CrudPairs(resources[..k])
    {
      var r := resources[k];
      out := out + [Permission(View, r)];
      out := out + [Permission(Create, r)];
      out := out + [Permission(Update, r)];
      out := out + [Permission(Delete, r)];
      assert resources[..k + 1][..k] == resources[..k];
      k := k + 1;
    }
    assert resources[..k] == resources;
  }

  /** The innermost loop for any other action: one pair per resource. */
  method PushPairs(expanded: seq<Permission>, a: Action, resources: seq<Resource>) returns (out: seq<Permission>)
    ensures out == expanded + PairsFor(a, resources)
  {
    out := expanded;
    var k := 0;
    while k < |resources|
      invariant 0 <= k <= |resources|
      invariant out == expanded + PairsFor(a, resources[..k])
    {
      out := out + [Permission(a, resources[k])];
      assert resources[..k + 1][..k] == resources[..k];
      k := k + 1;
    }
    assert resources[..k] == resources;
  }

  lemma {:induction false} CrudPairsMembers(resources: seq<Resource>, p: Permission)
    ensures p in CrudPairs(resources) <==> IsCrud(p.action) && p.resource in resources
  {
    if resources != [] {
      var init := resources[..|resources| - 1];
      CrudPairsMembers(init, p);
      assert resources == init + [resources[|resources| - 1]];
    }
  }

  lemma {:induction false} PairsForMembers(a: Action, resources: seq<Resource>, p: Permission)
    ensures p in PairsFor(a, resources) <==> p.action == a && p.resource in resources
  {
    if resources != [] {
      var init := resources[..|resources| - 1];
      PairsForMembers(a, init, p);
      assert resources == init + [resources[|resources| - 1]];
    }
  }

  /** What one rule lists: every non-`manage` action it names, and the four
      CRUD actions when it names `manage`, each on every resource it names. */
  predicate Lists(actions: seq<Action>, resources: seq<Resource>, p: Permission)
  {
    p.resource in resources
    && ((p.action != Manage && p.action in actions) || (Manage in actions && IsCrud(p.action)))
  }

  lemma {:induction false} ActionPairsMembers(actions: seq<Action>, resources: seq<Resource>, p: Permission)
    ensures p in ActionPairs(actions, resources) <==> Lists(actions, resources, p)
  {
    if actions != [] {
      var init := actions[..|actions| - 1];
      var a := actions[|actions| - 1];
      ActionPairsMembers(init, resources, p);
      assert actions == init + [a];
      if a == Manage {
        CrudPairsMembers(resources, p);
      } else {
        PairsForMembers(a, resources, p);
      }
    }
  }

  /** What one rule lists, stated on the rule. */
  predicate RuleLists(rule: Rule, p: Permission)
  {
    Lists(Expand(rule.action), Expand(rule.resource), p)
  }

  /** A pair in the listing comes from some rule of the list. */
  lemma {:induction false} RulePairsSource(rules: seq<Rule>, p: Permission) returns (k: nat)
    requires p in RulePairs(rules)
    ensures k < |rules| && RuleLists(rules[k], p)
  {
    var init := rules[..|rules| - 1];
    var last := rules[|rules| - 1];
    if p in RulePairs(init) {
      k := RulePairsSource(init, p);
      assert rules[k] == init[k];
    } else {
      ActionPairsMembers(Expand(last.action), Expand(last.resource), p);
      k := |rules| - 1;
    }
  }

  /** Every pair a rule of the list lists is in the listing. */
  lemma {:induction false} RulePairsComplete(rules: seq<Rule>, k: nat, p: Permission)
    requires k < |rules| && RuleLists(rules[k], p)
    ensures p in RulePairs(rules)
  {
    var init := rules[..|rules| - 1];
    var last := rules[|rules| - 1];
    if k < |init| {
      assert init[k] == rules[k];
      RulePairsComplete(init, k, p);
    } else {
      ActionPairsMembers(Expand(last.action), Expand(last.resource), p);
    }
  }

  /** Every pair the listing shows is granted by `hasPermission`, and the
      listing never shows `manage` itself. */
  lemma ListingIsSound(role: Role, p: Permission)
    requires p in RulePairs(Rules(role))
    ensures Granted(Some(role), p.action, p.resource)
    ensures p.action != Manage
  {
    var rules := Rules(role);
    var k := RulePairsSource(rules, p);
    assert RuleAllows(rules[k], p.action, p.resource);
  }

  /** A rule names the action and the resource outright. */
  predicate Names(rule: Rule, a: Action, r: Resource)
  {
    a in Expand(rule.action) && r in Expand(rule.resource)
  }

  /** The listing shows exactly the granted pairs whose action is not `manage`
      and is either a CRUD action or named outright by one of the role's rules. */
  lemma ListingExpandsManage(role: Role, a: Action, r: Resource)
    ensures Permission(a, r) in RulePairs(Rules(role)) <==>
      a != Manage && Granted(Some(role), a, r)
      && (IsCrud(a) || exists k | 0 <= k < |Rules(role)| :: Names(Rules(role)[k], a, r))
  {
    var p := Permission(a, r);
    var rules := Rules(role);
    if a != Manage && Granted(Some(role), a, r) {
      if IsCrud(a) {
        var k :| 0 <= k < |rules| && RuleAllows(rules[k], a, r);
        assert RuleLists(rules[k], p);
        RulePairsComplete(rules, k, p);
      } else if exists k | 0 <= k < |rules| :: Names(rules[k], a, r) {
        var k :| 0 <= k < |rules| && Names(rules[k], a, r);
        assert RuleLists(rules[k], p);
        RulePairsComplete(rules, k, p);
      }
    }
    if p in RulePairs(rules) {
      ListingIsSound(role, p);
      var k := RulePairsSource(rules, p);
      if !IsCrud(a) {
        assert Names(rules[k], a, r);
      }
    }
  }
}
