/**
 * The user store module (`src/store/user.ts`): the profile fetch status, the profile, the three mutations
 * that move the status forward, the guarded fetch action, and the scope getters.
 */
module UserStore {
  import opened Wrappers

  /** `FETCH_STATUSES`. */
  datatype FetchStatus = Idle | Loading | Success | Failure

  /** A role of the signed-in administrator and the scopes it grants. */
  datatype Role = Role(scopes: seq<string>)

  /** The profile as the store keeps it (only the roles are read). */
  datatype UserModel = UserModel(roles: seq<Role>)

  /** `UserModuleStateModel`. */
  datatype UserState = UserState(profile: Option<UserModel>, status: FetchStatus)

  /** The committed mutations. */
  datatype Mutation = ProfileRequestStarted | ProfileRequestFulfilled(user: UserModel) | ProfileRequestRejected

  /** The wildcard scope (`Scope.All`). */
  const AllScopes: string := "*"

  /** The module's initial state. */
  function Initial(): (r: UserState)
    ensures r.status == Idle && r.profile.None?
  {
    UserState(None, Idle)
  }

  /** One mutation: each acts only from the status it expects, and otherwise changes nothing. */
  function Apply(s: UserState, m: Mutation): (r: UserState)
    ensures r != s ==> (s.status, r.status) in {(Idle, Loading), (Loading, Success), (Loading, Failure)}
    ensures m.ProfileRequestStarted? ==> r == if s.status == Idle then UserState(s.profile, Loading) else s
    ensures m.ProfileRequestFulfilled? ==> r == if s.status == Loading then UserState(Some(m.user), Success) else s
    ensures m.ProfileRequestRejected? ==> r == if s.status == Loading then UserState(None, Failure) else s
  {
    match m
    case ProfileRequestStarted =>
      if s.status == Idle then s.(status := Loading) else s
    case ProfileRequestFulfilled(user) =>
      if s.status == Loading then UserState(Some(user), Success) else s
    case ProfileRequestRejected =>
      if s.status == Loading then UserState(None, Failure) else s
  }

  /** A run of mutations, in commit order. */
  function ApplyAll(s: UserState, ms: seq<Mutation>): UserState
    decreases |ms|
  {
    if ms == [] then s else ApplyAll(Apply(s, ms[0]), ms[1..])
  }

  /** A profile is kept exactly when the fetch succeeded. */
  predicate Consistent(s: UserState)
  {
    s.profile.Some? <==> s.status == Success
  }

  /** The scopes of all roles, in role order. */
  function Flatten(roles: seq<Role>): seq<string>
  {
    if roles == [] then [] else roles[0].scopes + Flatten(roles[1..])
  }

  /** `userScopes`: the roles' scopes, or none without a profile. */
  function Scopes(profile: Option<UserModel>): (r: seq<string>)
    ensures profile.None? ==> r == []
  {
    if profile.Some? then Flatten(profile.value.roles) else []
  }

  /** `userHasPermission(scope)`: the wildcard grants everything, otherwise the scope itself must be granted. */
  function HasPermission(profile: Option<UserModel>, scope: string): (r: bool)
    ensures r <==> AllScopes in Scopes(profile) || scope in Scopes(profile)
    ensures profile.None? ==> !r
  {
    var scopes := Scopes(profile);
    if AllScopes in scopes then true else scope in scopes
  }

  /** The store module's state, updated in place by the mutations. */
  class Store {
    var profile: Option<UserModel>
    var status: FetchStatus

    /** The state as a value. */
    function State(): UserState
      reads this
    {
      UserState(profile, status)
    }

    /** The module's `state` literal. */
    constructor ()
      ensures State() == Initial()
    {
      profile := None;
      status := Idle;
    }

    /** `PROFILE_REQUEST_STARTED`. */
    method ProfileRequestStarted()
      modifies this
      ensures State() == Apply(old(State()), Mutation.ProfileRequestStarted)
      ensures old(status) == Idle ==> status == Loading && profile == old(profile)
      ensures old(status) != Idle ==> status == old(status) && profile == old(profile)
    {
      if status == Idle {
        status := Loading;
      }
    }

    /** `PROFILE_REQUEST_FULFILLED`. */
    method ProfileRequestFulfilled(user: UserModel)
      modifies this
      ensures State() == Apply(old(State()), Mutation.ProfileRequestFulfilled(user))
      ensures old(status) == Loading ==> status == Success && profile == Some(user)
      ensures old(status) != Loading ==> status == old(status) && profile == old(profile)
    {
      if status == Loading {
        status := Success;
        profile := Some(user);
      }
    }

    /** `PROFILE_REQUEST_REJECTED`. */
    method ProfileRequestRejected()
      modifies this
      ensures State() == Apply(old(State()), Mutation.ProfileRequestRejected)
      ensures old(status) == Loading ==> status == Failure && profile.None?
      ensures old(status) != Loading ==> status == old(status) && profile == old(profile)
    {
      if status == Loading {
        status := Failure;
        profile := None;
      }
    }

    /** `FETCH_USER_PROFILE` up to the request: it commits the start only from the idle status. */
    method FetchUserProfile() returns (committed: bool)
      modifies this
      ensures committed <==> old(status) == Idle
      ensures committed ==> State() == Apply(old(State()), Mutation.ProfileRequestStarted) && status == Loading
      ensures !committed ==> State() == old(State())
    {
      if status != Idle {
        return false;
      }
      ProfileRequestStarted();
      return true;
    }

    /** `userScopes`, built as the getter builds it: one role's scopes appended at a time. */
    method UserScopes() returns (scopes: seq<string>)
      ensures scopes == Scopes(profile)
    {
      var roles := if profile.Some? then profile.value.roles else [];
      scopes := [];
      var i := 0;
      while i < |roles|
        invariant 0 <= i <= |roles|
        invariant scopes == Flatten(roles[..i])
      {
        FlattenAppend(roles[..i], roles[i]);
        assert roles[..i + 1] == roles[..i] + [roles[i]];
        scopes := scopes + roles[i].scopes;
        i := i + 1;
      }
      assert roles[..i] == roles;
    }

    /** `userHasPermission`. */
    function UserHasPermission(scope: string): (r: bool)
      reads this
      ensures r <==> AllScopes in Scopes(profile) || scope in Scopes(profile)
    {
      HasPermission(profile, scope)
    }
  }

  // ---------------------------------------------------------------------------------------------
  // Properties

  /** Appending a role appends its scopes. */
  lemma {:induction false} FlattenAppend(roles: seq<Role>, role: Role)
    ensures Flatten(roles + [role]) == Flatten(roles) + role.scopes
  {
    if roles == [] {
      assert [] + [role] == [role];
      assert [role][1..] == [];
    } else {
      assert (roles + [role])[1..] == roles[1..] + [role];
      FlattenAppend(roles[1..], role);
    }
  }

  /** A scope is granted exactly when some role grants it. */
  lemma {:induction false} FlattenMembers(roles: seq<Role>, scope: string)
    ensures scope in Flatten(roles) <==> exists i :: 0 <= i < |roles| && scope in roles[i].scopes
  {
    if roles != [] {
      FlattenMembers(roles[1..], scope);
      assert forall i :: 1 <= i < |roles| ==> roles[i] == roles[1..][i - 1];
      if exists i :: 0 <= i < |roles| && scope in roles[i].scopes {
        var i :| 0 <= i < |roles| && scope in roles[i].scopes;
        if i > 0 {
          assert scope in roles[1..][i - 1].scopes;
        }
      }
    }
  }

  /** The permission check in terms of roles: some role grants the wildcard or the scope. */
  lemma PermissionByRole(user: UserModel, scope: string)
    ensures HasPermission(Some(user), scope) <==>
      exists i :: 0 <= i < |user.roles| && (AllScopes in user.roles[i].scopes || scope in user.roles[i].scopes)
  {
    FlattenMembers(user.roles, AllScopes);
    FlattenMembers(user.roles, scope);
  }

  /** Success and failure are terminal: no run of mutations leaves them. */
  lemma {:induction false} Terminal(s: UserState, ms: seq<Mutation>)
    requires s.status == Success || s.status == Failure
    ensures ApplyAll(s, ms) == s
    decreases |ms|
  {
    if ms != [] {
      assert Apply(s, ms[0]) == s;
      Terminal(s, ms[1..]);
    }
  }

  /** Every reachable state keeps a profile exactly when the fetch succeeded. */
  lemma {:induction false} ConsistentReachable(ms: seq<Mutation>)
    ensures Consistent(ApplyAll(Initial(), ms))
  {
    ConsistentPreserved(Initial(), ms);
  }

  /** The mutations preserve the consistency of the profile with the status. */
  lemma {:induction false} ConsistentPreserved(s: UserState, ms: seq<Mutation>)
    requires Consistent(s)
    ensures Consistent(ApplyAll(s, ms))
    decreases |ms|
  {
    if ms != [] {
      assert Consistent(Apply(s, ms[0]));
      ConsistentPreserved(Apply(s, ms[0]), ms[1..]);
    }
  }

  /** From the initial state, the fetch action starts the request once and never again. */
  lemma {:induction false} FetchOnlyOnce(ms: seq<Mutation>)
    ensures var s := ApplyAll(Apply(Initial(), ProfileRequestStarted), ms);
      s.status != Idle
  {
    NeverIdleAgain(Apply(Initial(), ProfileRequestStarted), ms);
  }

  /** Once the status has left idle it never comes back. */
  lemma {:induction false} NeverIdleAgain(s: UserState, ms: seq<Mutation>)
    requires s.status != Idle
    ensures ApplyAll(s, ms).status != Idle
    decreases |ms|
  {
    if ms != [] {
      NeverIdleAgain(Apply(s, ms[0]), ms[1..]);
    }
  }
}
