/** The `acl` crate: the access-control decision contract, its two preset evaluators and the
    interface of a per-user roles cache. */
module Acl {
  import opened Prelude

  /** `CheckScope<Scope, T>`: tells whether the (optional) object lies in `scope` for a user.
      A total arrow: it has no precondition, reads no state, answers a plain `bool` (there is
      no error channel) and takes `None` for an absent object like any other argument. */
  type CheckScope<!Scope, !T> = (i32, Scope, Option<T>) -> bool

  /** `Acl<Resource, Action, Scope, Error, T>`: whether `action` on `resource` is allowed,
      given a scope checker supplied by the caller and the optional object acted on; `Err`
      carries an evaluator's own failure. */
  type Acl<!Resource, !Action, !Scope, Error, !T> =
    (Resource, Action, CheckScope<Scope, T>, Option<T>) -> Result<bool, Error>

  /** `acl` answers `Ok(verdict)` on every input: one fixed verdict, never an error. */
  ghost predicate ConstantVerdict<Resource(!new), Action(!new), Scope(!new), Error, T(!new)>(
    acl: Acl<Resource, Action, Scope, Error, T>, verdict: bool)
  {
    forall resource, action, checker, obj :: acl(resource, action, checker, obj) == Ok(verdict)
  }

  /** `SystemACL`: allows everything. */
  datatype SystemAcl = SystemAcl
  {
    function Allows<Resource, Action, Scope, Error, T>(
      resource: Resource, action: Action, scopeChecker: CheckScope<Scope, T>, obj: Option<T>): Result<bool, Error>
    {
      Ok(true)
    }

    /** This evaluator seen through the `Acl` contract: it allows everything, for every
        resource, action, scope checker and object, and never fails. */
    function AsAcl<Resource(!new), Action(!new), Scope(!new), Error, T(!new)>(): (acl: Acl<Resource, Action, Scope, Error, T>)
      ensures ConstantVerdict(acl, true)
    {
      (resource: Resource, action: Action, scopeChecker: CheckScope<Scope, T>, obj: Option<T>) =>
        Allows(resource, action, scopeChecker, obj)
    }
  }

  /** `UnauthorizedACL`: denies everything. */
  datatype UnauthorizedAcl = UnauthorizedAcl
  {
    function Allows<Resource, Action, Scope, Error, T>(
      resource: Resource, action: Action, scopeChecker: CheckScope<Scope, T>, obj: Option<T>): Result<bool, Error>
    {
      Ok(false)
    }

    /** This evaluator seen through the `Acl` contract: it denies everything, for every
        resource, action, scope checker and object, and never fails. */
    function AsAcl<Resource(!new), Action(!new), Scope(!new), Error, T(!new)>(): (acl: Acl<Resource, Action, Scope, Error, T>)
      ensures ConstantVerdict(acl, false)
    {
      (resource: Resource, action: Action, scopeChecker: CheckScope<Scope, T>, obj: Option<T>) =>
        Allows(resource, action, scopeChecker, obj)
    }
  }

  /** Neither preset looks at its arguments: the verdict is the same for any two resources,
      actions, scope checkers (so no checker's answer is ever consulted) and objects, present
      or absent. */
  lemma PresetsIgnoreArguments<Resource, Action, Scope, Error, T>(
    system: SystemAcl, unauthorized: UnauthorizedAcl,
    resource: Resource, action: Action, checker: CheckScope<Scope, T>, obj: Option<T>,
    resource': Resource, action': Action, checker': CheckScope<Scope, T>, obj': Option<T>)
    ensures system.Allows<Resource, Action, Scope, Error, T>(resource, action, checker, obj)
         == system.Allows<Resource, Action, Scope, Error, T>(resource', action', checker', obj')
    ensures unauthorized.Allows<Resource, Action, Scope, Error, T>(resource, action, checker, obj)
         == unauthorized.Allows<Resource, Action, Scope, Error, T>(resource', action', checker', obj')
  {
  }

  /** On every input `SystemACL` answers `Ok(true)` and `UnauthorizedACL` answers `Ok(false)`,
      at every type: the presets disagree, and neither takes the error branch. */
  lemma PresetsDisagree<Resource, Action, Scope, Error, T>(
    system: SystemAcl, unauthorized: UnauthorizedAcl, resource: Resource, action: Action, checker: CheckScope<Scope, T>, obj: Option<T>)
    ensures system.Allows<Resource, Action, Scope, Error, T>(resource, action, checker, obj) == Ok(true)
    ensures unauthorized.Allows<Resource, Action, Scope, Error, T>(resource, action, checker, obj) == Ok(false)
    ensures system.Allows<Resource, Action, Scope, Error, T>(resource, action, checker, obj).value
        != unauthorized.Allows<Resource, Action, Scope, Error, T>(resource, action, checker, obj).value
  {
  }

  /** The operations a `RolesCache` implementation supplies, over its hidden state `S`. Only
      the signatures are known, so each operation is an arbitrary total function: `get`
      yields a possibly empty list, `contains` a bool, and `clear`, `remove` and `addRoles`
      a new state; none can fail. */
  datatype RolesCacheOps<!S, !Role> = RolesCacheOps(
    get: (S, i32) -> seq<Role>,
    contains: (S, i32) -> bool,
    clear: S -> S,
    remove: (S, i32) -> S,
    addRoles: (S, i32, seq<Role>) -> S)

  /** A handle on a roles cache: the state its `&self` methods update in place, and the
      implementation's operations on it. */
  class RolesCache<S, Role>
  {
    const ops: RolesCacheOps<S, Role>
    var state: S

    constructor (ops: RolesCacheOps<S, Role>, initial: S)
      ensures this.ops == ops && state == initial
    {
      this.ops := ops;
      state := initial;
    }

    /** The roles the implementation reports for `userId`; the cache is left as it was. */
    method Get(userId: i32) returns (roles: seq<Role>)
      ensures roles == ops.get(state, userId)
    {
      roles := ops.get(state, userId);
    }

    /** Whether the implementation holds `userId`; the cache is left as it was. */
    method Contains(userId: i32) returns (b: bool)
      ensures b == ops.contains(state, userId)
    {
      b := ops.contains(state, userId);
    }

    method Clear()
      modifies this`state
      ensures state == ops.clear(old(state))
    {
      state := ops.clear(state);
    }

    method Remove(userId: i32)
      modifies this`state
      ensures state == ops.remove(old(state), userId)
    {
      state := ops.remove(state, userId);
    }

    method AddRoles(userId: i32, roles: seq<Role>)
      modifies this`state
      ensures state == ops.addRoles(old(state), userId, roles)
    {
      state := ops.addRoles(state, userId, roles);
    }
  }
}
