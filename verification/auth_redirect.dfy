/** `useAuthRedirect`: once a signed-in user is known, look up the role by
    document existence (customers first, then tailors) and send the user to
    that role's dashboard. */
module AuthRedirect {
  import opened JsValues
  import opened DocumentStore
  import opened UserActions

  /** `getUserRole(user)` */
  function GetUserRole(store: Store, uid: string): (role: Option<Role>)
    ensures role == Some(Customer) <==> GetDoc(store, Customers, uid).Some?
    ensures role == Some(Tailor) <==> GetDoc(store, Customers, uid).None? && GetDoc(store, Tailors, uid).Some?
    ensures role.None? <==> GetDoc(store, Customers, uid).None? && GetDoc(store, Tailors, uid).None?
  {
    var customerDocSnap := GetDoc(store, Customers, uid);
    if customerDocSnap.Some? then Some(Customer)
    else
      var tailorDocSnap := GetDoc(store, Tailors, uid);
      if tailorDocSnap.Some? then Some(Tailor) else None
  }

  /** The route the hook pushes when the auth state settles on `user`. */
  function Redirect(store: Store, user: Option<string>): (route: Option<string>)
    ensures route.Some? <==> user.Some? && GetUserRole(store, user.value).Some?
    ensures route.Some? ==> route.value == Dashboard(GetUserRole(store, user.value).value)
  {
    if user.Some? then
      var role := GetUserRole(store, user.value);
      if role.Some? then Some(Dashboard(role.value)) else None
    else None
  }

  /** Whether a user's document exists in a collection. */
  predicate Exists(store: Store, coll: string, uid: string)
  {
    GetDoc(store, coll, uid).Some?
  }

  /** Only the existence of the two documents matters: two stores that agree on
      it give the same role and the same redirect, whatever the documents hold
      (the onboarding flag among them). */
  lemma RoleDependsOnlyOnExistence(s1: Store, s2: Store, uid: string)
    requires Exists(s1, Customers, uid) == Exists(s2, Customers, uid)
    requires Exists(s1, Tailors, uid) == Exists(s2, Tailors, uid)
    ensures GetUserRole(s1, uid) == GetUserRole(s2, uid)
    ensures Redirect(s1, Some(uid)) == Redirect(s2, Some(uid))
  {
  }

  /** A customer document wins over a tailor document: the tailor collection is
      consulted only when there is no customer document. */
  lemma CustomerFirst(store: Store, uid: string, d: Doc)
    requires Exists(store, Customers, uid)
    ensures GetUserRole(store, uid) == Some(Customer)
    ensures GetUserRole(MergeWrite(store, Tailors, uid, d), uid) == Some(Customer)
    ensures Redirect(store, Some(uid)) == Some("/customer/dashboard")
  {
    assert GetDoc(MergeWrite(store, Tailors, uid, d), Customers, uid) == GetDoc(store, Customers, uid);
    assert Dashboard(Customer) == "/customer/dashboard";
  }
}
