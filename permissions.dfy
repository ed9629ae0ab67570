/**
 * Package `permissions`: capability checks that fill a user's view on first use, the
 * content accessors built on them, and the request gates put in front of handlers.
 */
module Permissions {
  import opened Wrappers
  import opened Users
  import opened Model
  import opened Http

  /** The view a check would use: the user's own once set, otherwise `GetView(Identifier)`. */
  function EffectiveView(u: User): (pv: DBPermissionView)
    reads u
    ensures u.permissions.None? ==> Capabilities(pv) == PolicyRow(RoleOf(u.identifier))
  {
    u.permissions.GetOr(GetView(u.identifier))
  }

  // Each check sets an unset view to `GetView(u.Identifier)` and never recomputes a set one.

  method CanView(u: User, isAdminContent: bool) returns (ok: bool)
    modifies u`permissions
    ensures u.permissions == Some(old(EffectiveView(u)))
    ensures old(u.permissions).Some? ==> u.permissions == old(u.permissions)
    ensures ok == old(EffectiveView(u)).CanView(isAdminContent)
  {
    if u.permissions.None? {
      u.permissions := Some(GetView(u.identifier));
    }
    ok := u.permissions.value.CanView(isAdminContent);
  }

  method CanCreate(u: User) returns (ok: bool)
    modifies u`permissions
    ensures u.permissions == Some(old(EffectiveView(u)))
    ensures old(u.permissions).Some? ==> u.permissions == old(u.permissions)
    ensures ok == old(EffectiveView(u)).CanCreate()
  {
    if u.permissions.None? {
      u.permissions := Some(GetView(u.identifier));
    }
    ok := u.permissions.value.CanCreate();
  }

  method CanUpdate(u: User) returns (ok: bool)
    modifies u`permissions
    ensures u.permissions == Some(old(EffectiveView(u)))
    ensures old(u.permissions).Some? ==> u.permissions == old(u.permissions)
    ensures ok == old(EffectiveView(u)).CanUpdate()
  {
    if u.permissions.None? {
      u.permissions := Some(GetView(u.identifier));
    }
    ok := u.permissions.value.CanUpdate();
  }

  method CanDelete(u: User) returns (ok: bool)
    modifies u`permissions
    ensures u.permissions == Some(old(EffectiveView(u)))
    ensures old(u.permissions).Some? ==> u.permissions == old(u.permissions)
    ensures ok == old(EffectiveView(u)).CanDelete()
  {
    if u.permissions.None? {
      u.permissions := Some(GetView(u.identifier));
    }
    ok := u.permissions.value.CanDelete();
  }

  method CanViewAll(u: User) returns (ok: bool)
    modifies u`permissions
    ensures u.permissions == Some(old(EffectiveView(u)))
    ensures old(u.permissions).Some? ==> u.permissions == old(u.permissions)
    ensures ok == old(EffectiveView(u)).CanViewAll()
  {
    if u.permissions.None? {
      u.permissions := Some(GetView(u.identifier));
    }
    ok := u.permissions.value.CanViewAll();
  }

  /**
   * Once a check has filled the view, a later change of `Identifier` does not change
   * the answers: the view is not recomputed.
   */
  method ViewIsFilledOnce(u: User, newIdentifier: string) returns (first: bool, second: bool)
    modifies u`permissions, u`identifier
    ensures first == second
    ensures first == old(EffectiveView(u)).CanCreate()
    ensures u.identifier == newIdentifier
  {
    first := CanCreate(u);
    u.identifier := newIdentifier;
    second := CanCreate(u);
  }

  /**
   * `FilterItemsForUser`: asks `CanView(user, false)` once per item, so it keeps every
   * item, in order, or none; with no items it never asks and leaves the view unset.
   */
  method FilterItemsForUser(items: seq<Item>, u: User) returns (filtered: seq<Item>)
    modifies u`permissions
    ensures filtered == if old(EffectiveView(u)).CanView(false) then items else []
    ensures u.permissions == if items == [] then old(u.permissions) else Some(old(EffectiveView(u)))
  {
    filtered := [];
    var i := 0;
    while i < |items|
      invariant 0 <= i <= |items|
      invariant EffectiveView(u) == old(EffectiveView(u))
      invariant u.permissions == if i == 0 then old(u.permissions) else Some(old(EffectiveView(u)))
      invariant filtered == if old(EffectiveView(u)).CanView(false) then items[..i] else []
    {
      var ok := CanView(u, false);
      if ok {
        filtered := filtered + [items[i]];
      }
      i := i + 1;
    }
  }

  /** A user whose view is still unset sees every item: each role's mask has the view bit. */
  method FilterKeepsAllForUnsetView(items: seq<Item>, u: User) returns (filtered: seq<Item>)
    requires u.permissions.None?
    modifies u`permissions
    ensures filtered == items
  {
    EveryRoleMayView(u.identifier);
    filtered := FilterItemsForUser(items, u);
  }

  const NotAuthorized := "not authorized"

  /** `GetAdminOnlyContent`: the content when admin content may be viewed, else an error. */
  method GetAdminOnlyContent(u: User) returns (content: string, err: Option<string>)
    modifies u`permissions
    ensures u.permissions == Some(old(EffectiveView(u)))
    ensures old(EffectiveView(u)).CanView(true) ==> content == "This is admin-only content" && err == None
    ensures !old(EffectiveView(u)).CanView(true) ==> content == "" && err == Some(NotAuthorized)
  {
    var ok := CanView(u, true);
    if ok {
      return "This is admin-only content", None;
    }
    return "", Some(NotAuthorized);
  }

  /** `UserView`: the content when plain viewing is granted, else an error. */
  method UserView(u: User) returns (content: string, err: Option<string>)
    modifies u`permissions
    ensures u.permissions == Some(old(EffectiveView(u)))
    ensures old(EffectiveView(u)).CanView(false) ==> content == "This is user-level content" && err == None
    ensures !old(EffectiveView(u)).CanView(false) ==> content == "" && err == Some(NotAuthorized)
  {
    var ok := CanView(u, false);
    if ok {
      return "This is user-level content", None;
    }
    return "", Some(NotAuthorized);
  }

  /** `AdminView`: the content when admin content may be viewed, else an error. */
  method AdminView(u: User) returns (content: string, err: Option<string>)
    modifies u`permissions
    ensures u.permissions == Some(old(EffectiveView(u)))
    ensures old(EffectiveView(u)).CanView(true) ==> content == "This is admin-level content" && err == None
    ensures !old(EffectiveView(u)).CanView(true) ==> content == "" && err == Some(NotAuthorized)
  {
    var ok := CanView(u, true);
    if ok {
      return "This is admin-level content", None;
    }
    return "", Some(NotAuthorized);
  }

  // ---------------------------------------------------------------------------
  // Request gates. A gate either calls `next` or answers 401 without calling it. The
  // value it reads from the request context is an `Option`: a missing value makes the
  // single-result type assertion panic before either happens.

  datatype GateOutcome = Forwarded | Rejected(status: int) | Panicked

  /** The question a gate asks of a view. */
  datatype Capability = View | Create | Update | Delete | ViewAll

  predicate Allows(pv: DBPermissionView, cap: Capability) {
    match cap
    case View => pv.CanView(false)
    case Create => pv.CanCreate()
    case Update => pv.CanUpdate()
    case Delete => pv.CanDelete()
    case ViewAll => pv.CanViewAll()
  }

  /** The request context's "item" value passed to the author-based gates. */
  function AuthorGate(ctxItem: Option<Item>, cap: Capability): GateOutcome
  {
    match ctxItem
    case None => Panicked
    case Some(item) =>
      if Allows(GetView(item.author), cap) then Forwarded else Rejected(StatusUnauthorized)
  }

  /** `CanViewHandler` decides on the item's author, and every author may view. */
  function CanViewHandler(ctxItem: Option<Item>): (r: GateOutcome)
    ensures ctxItem.Some? ==> r == Forwarded
    ensures ctxItem.None? ==> r == Panicked
  {
    EveryRoleMayView(if ctxItem.Some? then ctxItem.value.author else "");
    AuthorGate(ctxItem, View)
  }

  /** `CanUpdateHandler` forwards exactly when the item's author is "admin" or "user". */
  function CanUpdateHandler(ctxItem: Option<Item>): (r: GateOutcome)
    ensures ctxItem.Some? ==>
      (r == Forwarded <==> ctxItem.value.author == "admin" || ctxItem.value.author == "user")
    ensures ctxItem.Some? && r != Forwarded ==> r == Rejected(StatusUnauthorized)
    ensures ctxItem.None? ==> r == Panicked
  {
    AuthorGate(ctxItem, Update)
  }

  /** `CanDeleteHandler` forwards exactly when the item's author is "admin". */
  function CanDeleteHandler(ctxItem: Option<Item>): (r: GateOutcome)
    ensures ctxItem.Some? ==> (r == Forwarded <==> ctxItem.value.author == "admin")
    ensures ctxItem.Some? && r != Forwarded ==> r == Rejected(StatusUnauthorized)
    ensures ctxItem.None? ==> r == Panicked
  {
    AuthorGate(ctxItem, Delete)
  }

  /** The request context's "username" value passed to the requester-based gates. */
  function UsernameGate(ctxUsername: Option<string>, cap: Capability): GateOutcome
  {
    match ctxUsername
    case None => Panicked
    case Some(name) =>
      if Allows(GetView(name), cap) then Forwarded else Rejected(StatusUnauthorized)
  }

  /** `CanCreateHandler` forwards exactly when the requester is "admin" or "user". */
  function CanCreateHandler(ctxUsername: Option<string>): (r: GateOutcome)
    ensures ctxUsername.Some? ==>
      (r == Forwarded <==> ctxUsername.value == "admin" || ctxUsername.value == "user")
    ensures ctxUsername.Some? && r != Forwarded ==> r == Rejected(StatusUnauthorized)
    ensures ctxUsername.None? ==> r == Panicked
  {
    UsernameGate(ctxUsername, Create)
  }

  /** `CanViewAllHandler` forwards exactly when the requester is "admin". */
  function CanViewAllHandler(ctxUsername: Option<string>): (r: GateOutcome)
    ensures ctxUsername.Some? ==> (r == Forwarded <==> ctxUsername.value == "admin")
    ensures ctxUsername.Some? && r != Forwarded ==> r == Rejected(StatusUnauthorized)
    ensures ctxUsername.None? ==> r == Panicked
  {
    UsernameGate(ctxUsername, ViewAll)
  }

  /** The delete gate looks at who wrote the item, never at who asks. */
  lemma DeleteGateIgnoresRequester(item: Item, requester: string)
    ensures forall other: Item :: other.author == item.author ==>
      CanDeleteHandler(Some(other)) == CanDeleteHandler(Some(item))
    ensures requester != "admin" && item.author == "admin" ==>
      CanDeleteHandler(Some(item)) == Forwarded && CanViewAllHandler(Some(requester)) != Forwarded
  {
  }
}
