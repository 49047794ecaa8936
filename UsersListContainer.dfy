/** The user list page's filter: a case-insensitive substring search over
    name, e-mail and role, and the guard inspecting user record keys. */
module UsersListContainer {
  import opened Wrappers
  import opened Seqs
  import opened Text

  /** A user as the page sees it; a field the server left out is `None`. */
  datatype User = User(id: int, name: Option<string>, email: Option<string>, role: Option<string>)

  /** `field?.toLowerCase().includes(target)`: a missing field never matches. */
  predicate FieldHas(field: Option<string>, target: string) {
    field.Some? && Contains(Lower(field.value), target)
  }

  /** The lower-cased (not trimmed) term occurs in the name, e-mail or role. */
  predicate Keeps(u: User, term: string) {
    var target := Lower(term);
    FieldHas(u.name, target) || FieldHas(u.email, target) || FieldHas(u.role, target)
  }

  /** `filterUsers`: all users for a blank term, otherwise those kept, in order. */
  function FilterUsers(users: seq<User>, term: string): (r: seq<User>)
    ensures Trim(term) == "" ==> r == users
    ensures Trim(term) != "" ==> forall i :: 0 <= i < |r| ==> r[i] in users && Keeps(r[i], term)
    ensures Trim(term) != "" ==> forall i :: 0 <= i < |users| && Keeps(users[i], term) ==> users[i] in r
  {
    if Trim(term) == "" then users else Filter((u: User) => Keeps(u, term), users)
  }

  /** The result keeps the list's order; filtering it again with the same term changes nothing. */
  lemma FilterUsersLaws(users: seq<User>, term: string)
    ensures IsSubsequence(FilterUsers(users, term), users)
    ensures FilterUsers(FilterUsers(users, term), term) == FilterUsers(users, term)
  {
    if Trim(term) == "" {
      SubsequenceRefl(users);
    } else {
      var f := (u: User) => Keeps(u, term);
      FilterIsSubsequence(f, users);
      FilterIdempotent(f, users);
    }
  }

  /** A user missing all three fields is kept only by a blank term. */
  lemma EmptyUserOnlyForBlankTerm(u: User, term: string)
    requires u.name.None? && u.email.None? && u.role.None?
    ensures FilterUsers([u], term) == [u] <==> Trim(term) == ""
  {
    if Trim(term) != "" {
      assert !Keeps(u, term);
      assert FilterUsers([u], term) == [];
    }
  }

  /** The record keys the page may filter by. */
  const UserKeys: set<string> := {"id", "name", "email", "role", "avatar", "creationAt", "updatedAt"}

  /** `isUserKey`. */
  function IsUserKey(key: string): (r: bool)
    ensures r <==> key in UserKeys
  {
    key in ["id", "name", "email", "role", "avatar", "creationAt", "updatedAt"]
  }

  /** Seven keys are accepted; the password, although a field of the record, is not one of them. */
  lemma UserKeysFacts()
    ensures |UserKeys| == 7
    ensures !IsUserKey("password")
  {
  }
}
