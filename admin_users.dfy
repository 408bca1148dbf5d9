/**
 * The admin users page: the role buttons and the role and search filters
 * over the loaded users.
 */
module AdminUsers {
  import opened Wrappers
  import opened Models
  import Lists
  import Text
  import AdminTable

  /** The filter button that keeps every user. */
  const AllRoles: string := "All"

  /** `['All', 'admin', 'user']`: the filter buttons. */
  const RoleButtons: seq<string> := [AllRoles, "admin", "user"]

  /** The role filter keeps everything for `All`, otherwise the equal role. */
  predicate RoleMatches(u: User, roleFilter: string) {
    roleFilter == AllRoles || u.role == roleFilter
  }

  /** `f?.toLowerCase().includes(search.toLowerCase())`: false when the field is missing. */
  predicate FieldMatches(f: Option<string>, search: string, lower: string -> string) {
    f.Some? && Text.Includes(lower(f.value), lower(search))
  }

  /** The search: the name or the email contains the search text. */
  predicate UserMatches(u: User, search: string, lower: string -> string) {
    FieldMatches(u.name, search, lower) || FieldMatches(u.email, search, lower)
  }

  /** `filtered`: the role filter, then the search, in the loaded order. */
  function FilteredUsers(users: seq<User>, roleFilter: string, search: string,
                         lower: string -> string): (r: seq<User>)
    ensures |r| <= |users|
    ensures forall u :: u in r <==> u in users && RoleMatches(u, roleFilter) && UserMatches(u, search, lower)
  {
    var byRole := Lists.Filter(users, u => RoleMatches(u, roleFilter));
    Lists.Filter(byRole, u => UserMatches(u, search, lower))
  }

  /** A user with a name or an email. */
  predicate HasNameOrEmail(u: User) {
    u.name.Some? || u.email.Some?
  }

  /**
   * With `All` and an empty search the table lists the users that have a
   * name or an email, in order: a user with neither never matches any
   * search, not even the empty one.
   */
  lemma EmptySearchHidesNamelessUsers(users: seq<User>, lower: string -> string)
    requires lower("") == ""
    ensures FilteredUsers(users, AllRoles, "", lower) == Lists.Filter(users, HasNameOrEmail)
    ensures forall u, s :: !HasNameOrEmail(u) ==> u !in FilteredUsers(users, AllRoles, s, lower)
  {
    Lists.FilterAll(users, u => RoleMatches(u, AllRoles));
    SameFilter(users, u => UserMatches(u, "", lower), HasNameOrEmail);
  }

  /** Two filters that agree on every element of the list give the same result. */
  /**
   * The role buttons split the users: a user with one of the two roles who
   * matches the search is listed under `All` and under the own role's
   * button, and under no other.
   */
  lemma RoleButtonsSplit(users: seq<User>, u: User, search: string, lower: string -> string)
    requires u in users && u.role in RoleButtons[1..]
    requires UserMatches(u, search, lower)
    ensures forall s :: s in RoleButtons ==>
      (u in FilteredUsers(users, s, search, lower) <==> s == AllRoles || s == u.role)
  {
  }

  lemma {:induction false} SameFilter(s: seq<User>, p: User -> bool, q: User -> bool)
    requires forall i :: 0 <= i < |s| ==> p(s[i]) == q(s[i])
    ensures Lists.Filter(s, p) == Lists.Filter(s, q)
  {
    if |s| > 0 {
      SameFilter(s[1..], p, q);
    }
  }
}
