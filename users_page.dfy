/** The user list page: a search box narrows the fetched profiles, each row shows a role badge,
    and a confirmed delete drops the profile's rows. */
module UsersPage {
  import opened Seqs
  import opened Text
  import Toasts
  import AuthGuard

  /** A fetched profile row. */
  datatype UserRow = UserRow(id: string, email: Option<string>, fullName: Option<string>, role: Option<string>)

  datatype RoleTone = AdminTone | UserTone

  datatype RoleIcon = ShieldAlert | Shield

  function IdOf(u: UserRow): string
  {
    u.id
  }

  /** Email, name and role are all compared ignoring case. */
  function MatchesSearch(u: UserRow, term: string): (b: bool)
    ensures b ==> u.email.Some? || u.fullName.Some? || u.role.Some?
    ensures term == "" ==> (b <==> u.email.Some? || u.fullName.Some? || u.role.Some?)
  {
    FieldMatches(u.email, term) || FieldMatches(u.fullName, term) || FieldMatches(u.role, term)
  }

  function SearchFor(term: string): UserRow -> bool
  {
    (u: UserRow) => MatchesSearch(u, term)
  }

  /** The list the filter effect shows: everything for an empty term, else the matches. */
  function Search(users: seq<UserRow>, term: string): (r: seq<UserRow>)
    ensures term == "" ==> r == users
    ensures |r| <= |users|
    ensures forall u :: u in r ==> u in users
  {
    if term == "" then users else Filter(users, SearchFor(term))
  }

  /** The result keeps the original order and holds exactly the users that pass. */
  lemma {:induction false} SearchIsOrderedSelection(users: seq<UserRow>, term: string)
    ensures IsSubsequence(Search(users, term), users)
    ensures forall u :: u in Search(users, term) <==> u in users && (term == "" || MatchesSearch(u, term))
  {
    if term == "" {
      FilterKeepsAll(users, (u: UserRow) => true);
      FilterIsSubsequence(users, (u: UserRow) => true);
    } else {
      FilterIsSubsequence(users, SearchFor(term));
    }
  }

  /** The letter case of the term does not matter. */
  lemma SearchIgnoresCase(users: seq<UserRow>, term: string)
    ensures Search(users, Lower(term)) == Search(users, term)
  {
    if term == "" {
      assert Lower(term) == "";
      return;
    }
    forall u | true ensures SearchFor(Lower(term))(u) == SearchFor(term)(u) {
      FieldMatchesIgnoresTermCase(u.email, term);
      FieldMatchesIgnoresTermCase(u.fullName, term);
      FieldMatchesIgnoresTermCase(u.role, term);
    }
    FilterExtensional(users, SearchFor(Lower(term)), SearchFor(term));
  }

  /** Typing the role finds every administrator. */
  lemma RoleSearchFindsAdmins(users: seq<UserRow>, u: UserRow)
    requires u in users && u.role == Some(AuthGuard.AdminRole)
    ensures u in Search(users, "ADMIN")
  {
    assert Lower("ADMIN") == AuthGuard.AdminRole;
    assert Lower(AuthGuard.AdminRole) == AuthGuard.AdminRole;
  }

  /** `getRoleColor`: the `admin` colour for `admin`, the `user` colour for every other role. */
  function RoleColor(role: Option<string>): (t: RoleTone)
    ensures t == AdminTone <==> role == Some(AuthGuard.AdminRole)
  {
    if role == Some(AuthGuard.AdminRole) then AdminTone else UserTone
  }

  /** `getRoleIcon`. */
  function IconOf(role: Option<string>): (icon: RoleIcon)
    ensures icon == ShieldAlert <==> role == Some(AuthGuard.AdminRole)
  {
    if role == Some(AuthGuard.AdminRole) then ShieldAlert else Shield
  }

  /** The badge label. */
  function RoleLabel(role: Option<string>): (text: string)
    ensures text == "Admin" <==> role == Some(AuthGuard.AdminRole)
    ensures text == "Kullanıcı" <==> role != Some(AuthGuard.AdminRole)
  {
    if role == Some(AuthGuard.AdminRole) then "Admin" else "Kullanıcı"
  }

  /** Colour, icon and label of a badge all pick the same side. */
  lemma BadgeIsConsistent(role: Option<string>)
    ensures RoleColor(role) == AdminTone <==> IconOf(role) == ShieldAlert
    ensures IconOf(role) == ShieldAlert <==> RoleLabel(role) == "Admin"
  {
  }

  datatype DeleteModal = DeleteModal(isOpen: bool, userId: string, userEmail: string)

  const ClosedModal := DeleteModal(false, "", "")

  /** The page's state fields; `filteredUsers` is kept by the search effect. */
  class Page {
    var users: seq<UserRow>
    var filteredUsers: seq<UserRow>
    var searchTerm: string
    var deleteModal: DeleteModal

    /** The effect has run for the current rows and term. */
    ghost predicate Valid()
      reads this
    {
      filteredUsers == Search(users, searchTerm)
    }

    constructor ()
      ensures Valid()
      ensures users == [] && searchTerm == "" && deleteModal == ClosedModal
    {
      users := [];
      filteredUsers := [];
      searchTerm := "";
      deleteModal := ClosedModal;
    }

    /** The search effect: start from all users and filter when a term is typed. */
    method RunSearchEffect()
      modifies this`filteredUsers
      ensures Valid()
    {
      var filtered := users;
      if searchTerm != "" {
        filtered := Filter(filtered, SearchFor(searchTerm));
      }
      filteredUsers := filtered;
    }

    /** `setUsers(data)` after a fetch, followed by the effect. */
    method SetUsers(rows: seq<UserRow>)
      modifies this`users, this`filteredUsers
      ensures users == rows && Valid()
    {
      users := rows;
      RunSearchEffect();
    }

    /** Typing in the search box, followed by the effect. */
    method SetSearchTerm(term: string)
      modifies this`searchTerm, this`filteredUsers
      ensures searchTerm == term && Valid()
    {
      searchTerm := term;
      RunSearchEffect();
    }

    /** `handleDelete`: a successful backend delete drops the rows with that id; the toast
        tells which happened; `finally` closes the modal either way. */
    method HandleDelete(userId: string, deleteFailed: bool) returns (notice: Toasts.Notice)
      modifies this`users, this`filteredUsers, this`deleteModal
      ensures users == if deleteFailed then old(users) else RemoveByKey(old(users), IdOf, userId)
      ensures notice == if deleteFailed then Toasts.Notice("Kullanıcı silinirken hata oluştu", Toasts.Error)
                        else Toasts.Notice("Kullanıcı silindi", Toasts.Success)
      ensures deleteModal == ClosedModal && Valid()
    {
      if !deleteFailed {
        users := RemoveByKey(users, IdOf, userId);
        notice := Toasts.Notice("Kullanıcı silindi", Toasts.Success);
      } else {
        notice := Toasts.Notice("Kullanıcı silinirken hata oluştu", Toasts.Error);
      }
      deleteModal := ClosedModal;
      RunSearchEffect();
    }
  }
}
