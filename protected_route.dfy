/**
 * ProtectedRoute: which routes a visitor may see, decided from the required
 * role and the logged-in user's category.
 */
module ProtectedRoute {
  import opened Wrappers
  import opened UserIds
  import opened Documents
  import opened UserStore

  /** What the route renders: a redirect to '/', a redirect to '/franchise-dashboard', or its children. */
  datatype Outcome = RedirectHome | RedirectFranchiseDashboard | RenderChildren

  /**
   * The gate. requiredRole None stands for an absent prop; currentUser None
   * for no logged-in user.
   */
  function Gate(requiredRole: Option<string>, currentUser: Option<Doc>, isCustomer: bool, isFranchise: bool): (o: Outcome)
    ensures requiredRole == Some("customer") ==> (o == RedirectHome <==> !isCustomer) && o != RedirectFranchiseDashboard
    ensures requiredRole == Some("franchise") ==> (o == RedirectHome <==> !isFranchise) && o != RedirectFranchiseDashboard
    ensures requiredRole == Some("non-franchise") ==>
      (o == RedirectFranchiseDashboard <==> currentUser.Some? && isFranchise) && o != RedirectHome
    ensures requiredRole !in {Some("customer"), Some("franchise"), Some("non-franchise")} ==> o == RenderChildren
  {
    if requiredRole == Some("customer") && !isCustomer then RedirectHome
    else if requiredRole == Some("franchise") && !isFranchise then RedirectHome
    else if requiredRole == Some("non-franchise") && currentUser.Some? && isFranchise then RedirectFranchiseDashboard
    else RenderChildren
  }

  /** `currentUser?.category === 'customer'`. */
  predicate IsCustomer(currentUser: Option<Doc>)
  {
    currentUser.Some? && Get(currentUser.value, CategoryKey) == Str("customer")
  }

  /** `currentUser?.category === 'franchise'`. */
  predicate IsFranchise(currentUser: Option<Doc>)
  {
    currentUser.Some? && Get(currentUser.value, CategoryKey) == Str("franchise")
  }

  /** The gate with isCustomer and isFranchise derived from the user, as the auth context supplies them. */
  function GateFor(requiredRole: Option<string>, currentUser: Option<Doc>): Outcome
  {
    Gate(requiredRole, currentUser, IsCustomer(currentUser), IsFranchise(currentUser))
  }

  /** Both flags come from the one category field, so no user is both. */
  lemma RolesExclusive(currentUser: Option<Doc>)
    ensures !(IsCustomer(currentUser) && IsFranchise(currentUser))
  {
  }

  /** The outcome depends only on the role, whether someone is logged in, and their category. */
  lemma GateDependsOnCategoryOnly(requiredRole: Option<string>, u1: Option<Doc>, u2: Option<Doc>)
    requires u1.Some? == u2.Some?
    requires u1.Some? ==> Get(u1.value, CategoryKey) == Get(u2.value, CategoryKey)
    ensures GateFor(requiredRole, u1) == GateFor(requiredRole, u2)
  {
  }

  /** An anonymous visitor is sent home from customer and franchise routes and sees everything else. */
  lemma AnonymousVisitor(requiredRole: Option<string>)
    ensures GateFor(requiredRole, None) ==
      if requiredRole in {Some("customer"), Some("franchise")} then RedirectHome else RenderChildren
  {
  }

  /**
   * For a user loaded from a registry whose records carry their id's
   * category: a cu-prefixed account passes customer routes and is sent home
   * from franchise routes; an fr-prefixed account passes franchise routes, is
   * sent home from customer routes and is sent to its dashboard from
   * non-franchise routes.
   */
  lemma GateForStoredUser(users: map<string, Doc>, userId: string)
    requires CategoryPinned(users) && userId in users
    ensures var u := Some(WithId(userId, users[userId]));
      && (StartsWith(userId, "cu") ==>
            && GateFor(Some("customer"), u) == RenderChildren
            && GateFor(Some("franchise"), u) == RedirectHome
            && GateFor(Some("non-franchise"), u) == RenderChildren)
      && (StartsWith(userId, "fr") ==>
            && GateFor(Some("customer"), u) == RedirectHome
            && GateFor(Some("franchise"), u) == RenderChildren
            && GateFor(Some("non-franchise"), u) == RedirectFranchiseDashboard)
  {
    var d := WithId(userId, users[userId]);
    assert Get(d, CategoryKey) == Get(users[userId], CategoryKey);
  }

  /** After an upgrade the account reaches franchise routes and leaves customer ones; after a revert, the reverse. */
  lemma GateAfterMove(s: Store, userId: string, now: int)
    ensures var up := UpgradeStep(s, userId, now, true);
      up.result.Ok? ==>
        var u := Some(WithId(up.result.value, up.store.users[up.result.value]));
        GateFor(Some("franchise"), u) == RenderChildren && GateFor(Some("customer"), u) == RedirectHome
    ensures var back := RevertStep(s, userId, now, true);
      back.result.Ok? ==>
        var u := Some(WithId(back.result.value, back.store.users[back.result.value]));
        GateFor(Some("customer"), u) == RenderChildren && GateFor(Some("franchise"), u) == RedirectHome
  {
    var up := UpgradeStep(s, userId, now, true);
    if up.result.Ok? {
      var f := up.result.value;
      assert Get(WithId(f, up.store.users[f]), CategoryKey) == Str("franchise");
    }
    var back := RevertStep(s, userId, now, true);
    if back.result.Ok? {
      var c := back.result.value;
      assert Get(WithId(c, back.store.users[c]), CategoryKey) == Str("customer");
    }
  }
}
