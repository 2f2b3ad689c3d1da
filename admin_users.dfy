/** The admin user table (src/app/admin/users/page.tsx): the case-insensitive
    search, the id-keyed update and delete of the user list, and the dialog and
    submission flags around them. Each asynchronous handler is split at its
    `await`: Begin... is what happens before it, End... what happens after it,
    with `ok` saying whether the awaited call succeeded. */
module AdminUsers {
  import opened Basics
  import opened Seqs
  import opened Users
  import opened UserEditForm

  const UpdateFailedMessage: string := "Could not update user details. Please try again."
  const DeleteFailedMessage: string := "Could not delete user. Please try again."

  // ---------------------------------------------------------------------------
  // Search
  // ---------------------------------------------------------------------------

  /** The search callback: the lower-cased name or email contains the
      lower-cased term. */
  predicate UserMatches(term: string, u: User) {
    Contains(Lower(u.name), Lower(term)) || Contains(Lower(u.email), Lower(term))
  }

  function MatchesTerm(term: string): User -> bool {
    (u: User) => UserMatches(term, u)
  }

  /** The list the search effect stores in `filteredUsers`. */
  function SearchUsers(users: seq<User>, term: string): seq<User> {
    Filter(users, MatchesTerm(term))
  }

  /** A user is shown iff it matches; the shown users keep their order, and
      each matching user is shown as often as it occurs. */
  lemma SearchUsersSpec(users: seq<User>, term: string)
    ensures forall u :: u in SearchUsers(users, term) <==> u in users && UserMatches(term, u)
    ensures forall u: User :: UserMatches(term, u) ==> multiset(SearchUsers(users, term))[u] == multiset(users)[u]
    ensures Subseq(SearchUsers(users, term), users)
  {
    FilterIsSubseq(users, MatchesTerm(term));
    FilterMultiset(users, MatchesTerm(term));
  }

  /** An empty search term shows every user. */
  lemma EmptySearchKeepsAll(users: seq<User>)
    ensures SearchUsers(users, "") == users
  {
    forall u | u in users ensures UserMatches("", u) {
      ContainsEmpty(Lower(u.name));
    }
    FilterKeepsAll(users, MatchesTerm(""));
  }

  /** The text of the empty table. */
  function EmptyTableMessage(term: string): (m: string)
    ensures m == "No users match your search." <==> term != ""
    ensures m == "No users found." <==> term == ""
  {
    if term != "" then "No users match your search." else "No users found."
  }

  // ---------------------------------------------------------------------------
  // Update and delete
  // ---------------------------------------------------------------------------

  /** `{ ...u, ...data }`: the submitted fields over the stored user. An
      absent admin flag leaves the stored one. */
  function MergeUser(u: User, data: UserEditFormData): User {
    u.(id := data.id, name := data.name, email := data.email,
       subscriptionStatus := data.subscriptionStatus,
       isAdmin := if data.isAdmin.Some? then data.isAdmin else u.isAdmin)
  }

  /** `prev.map(u => u.id === data.id ? { ...u, ...data } : u)`. */
  function UpdateUsers(users: seq<User>, data: UserEditFormData): (r: seq<User>)
    ensures |r| == |users|
    ensures forall i :: 0 <= i < |r| ==> r[i].id == users[i].id
    ensures forall i :: 0 <= i < |r| && users[i].id != data.id ==> r[i] == users[i]
    ensures forall i :: 0 <= i < |r| && users[i].id == data.id ==>
      && r[i].name == data.name && r[i].email == data.email
      && r[i].subscriptionStatus == data.subscriptionStatus
      && r[i].joinedDate == users[i].joinedDate && r[i].avatarUrl == users[i].avatarUrl
      && r[i].planName == users[i].planName
      && r[i].isAdmin == (if data.isAdmin.Some? then data.isAdmin else users[i].isAdmin)
  {
    if users == [] then []
    else
      var head := if users[0].id == data.id then MergeUser(users[0], data) else users[0];
      var rest := UpdateUsers(users[1..], data);
      var r := [head] + rest;
      assert forall i :: 1 <= i < |r| ==> r[i] == rest[i - 1] && users[i] == users[1..][i - 1];
      r
  }

  /** Submitting the same data twice changes nothing more. */
  lemma {:induction false} UpdateUsersIdempotent(users: seq<User>, data: UserEditFormData)
    ensures UpdateUsers(UpdateUsers(users, data), data) == UpdateUsers(users, data)
  {
    if users != [] {
      UpdateUsersIdempotent(users[1..], data);
      var r := UpdateUsers(users, data);
      assert r[1..] == UpdateUsers(users[1..], data);
    }
  }

  /** Updating an id no user has leaves the list as it was. */
  lemma UpdateAbsentIsNoop(users: seq<User>, data: UserEditFormData)
    requires forall u :: u in users ==> u.id != data.id
    ensures UpdateUsers(users, data) == users
  {
    var r := UpdateUsers(users, data);
    assert forall i :: 0 <= i < |users| ==> users[i] in users;
  }

  predicate HasOtherId(id: string, u: User) {
    u.id != id
  }

  function KeepsOtherIds(id: string): User -> bool {
    (u: User) => HasOtherId(id, u)
  }

  /** `prev.filter(u => u.id !== userId)`. */
  function DeleteUsers(users: seq<User>, id: string): seq<User> {
    Filter(users, KeepsOtherIds(id))
  }

  /** Delete removes every user with the id, keeps every other one, in order. */
  lemma DeleteUsersSpec(users: seq<User>, id: string)
    ensures forall u :: u in DeleteUsers(users, id) ==> u.id != id
    ensures forall u: User :: u.id != id ==> multiset(DeleteUsers(users, id))[u] == multiset(users)[u]
    ensures Subseq(DeleteUsers(users, id), users)
  {
    FilterIsSubseq(users, KeepsOtherIds(id));
    FilterMultiset(users, KeepsOtherIds(id));
  }

  /** Deleting an id no user has leaves the list as it was. */
  lemma DeleteAbsentIsNoop(users: seq<User>, id: string)
    requires forall u :: u in users ==> u.id != id
    ensures DeleteUsers(users, id) == users
  {
    FilterKeepsAll(users, KeepsOtherIds(id));
  }

  // ---------------------------------------------------------------------------
  // Page state
  // ---------------------------------------------------------------------------

  class AdminUsersPage {
    var users: seq<User>
    var filteredUsers: seq<User>
    var searchTerm: string
    var isSubmitting: bool
    var editingUser: Option<User>
    var viewingUser: Option<User>
    var isEditFormOpen: bool
    var error: Option<string>

    /** The page once the fetched users are in: the table shows all of them. */
    constructor (fetched: seq<User>)
      ensures filteredUsers == SearchUsers(users, searchTerm)
      ensures users == fetched && filteredUsers == fetched && searchTerm == ""
      ensures !isSubmitting && editingUser.None? && viewingUser.None? && !isEditFormOpen && error.None?
    {
      users := fetched;
      filteredUsers := fetched;
      searchTerm := "";
      isSubmitting := false;
      editingUser := None;
      viewingUser := None;
      isEditFormOpen := false;
      error := None;
      EmptySearchKeepsAll(fetched);
    }

    /** Typing in the search box; the effect then recomputes the table. */
    method SetSearchTerm(term: string)
      modifies this
      ensures searchTerm == term && filteredUsers == SearchUsers(users, term)
      ensures users == old(users) && isSubmitting == old(isSubmitting) && editingUser == old(editingUser)
      ensures viewingUser == old(viewingUser) && isEditFormOpen == old(isEditFormOpen) && error == old(error)
    {
      searchTerm := term;
      filteredUsers := SearchUsers(users, term);
    }

    /** `openEditDialog`. */
    method OpenEditDialog(u: User)
      modifies this
      ensures editingUser == Some(u) && isEditFormOpen
      ensures users == old(users) && filteredUsers == old(filteredUsers) && searchTerm == old(searchTerm)
      ensures isSubmitting == old(isSubmitting) && viewingUser == old(viewingUser) && error == old(error)
    {
      editingUser := Some(u);
      isEditFormOpen := true;
    }

    /** `openViewDialog`. */
    method OpenViewDialog(u: User)
      modifies this
      ensures viewingUser == Some(u)
      ensures users == old(users) && filteredUsers == old(filteredUsers) && searchTerm == old(searchTerm)
      ensures isSubmitting == old(isSubmitting) && editingUser == old(editingUser)
      ensures isEditFormOpen == old(isEditFormOpen) && error == old(error)
    {
      viewingUser := Some(u);
    }

    /** Cancelling or dismissing the edit dialog. */
    method CloseEditDialog()
      modifies this
      ensures editingUser.None? && !isEditFormOpen
      ensures users == old(users) && filteredUsers == old(filteredUsers) && searchTerm == old(searchTerm)
      ensures isSubmitting == old(isSubmitting) && viewingUser == old(viewingUser) && error == old(error)
    {
      isEditFormOpen := false;
      editingUser := None;
    }

    /** `handleUpdateUser` up to its `await`. */
    method BeginUpdateUser()
      modifies this
      ensures isSubmitting && error.None?
      ensures users == old(users) && filteredUsers == old(filteredUsers) && searchTerm == old(searchTerm)
      ensures editingUser == old(editingUser) && viewingUser == old(viewingUser)
      ensures isEditFormOpen == old(isEditFormOpen)
    {
      isSubmitting := true;
      error := None;
    }

    /** `handleUpdateUser` after its `await`: on success the list is updated
        and the dialog closed, on failure the error is shown; submission ends
        either way. */
    method EndUpdateUser(data: UserEditFormData, ok: bool)
      modifies this
      ensures filteredUsers == SearchUsers(users, searchTerm)
      ensures !isSubmitting
      ensures ok ==> users == UpdateUsers(old(users), data) && !isEditFormOpen && editingUser.None?
      ensures ok ==> error == old(error)
      ensures !ok ==> users == old(users) && error == Some(UpdateFailedMessage)
      ensures !ok ==> isEditFormOpen == old(isEditFormOpen) && editingUser == old(editingUser)
      ensures searchTerm == old(searchTerm) && viewingUser == old(viewingUser)
    {
      if ok {
        users := UpdateUsers(users, data);
        isEditFormOpen := false;
        editingUser := None;
      } else {
        error := Some(UpdateFailedMessage);
      }
      isSubmitting := false;
      RefreshSearch();
    }

    /** `handleDeleteUser` up to its `await`. */
    method BeginDeleteUser()
      modifies this
      ensures error.None?
      ensures users == old(users) && filteredUsers == old(filteredUsers) && searchTerm == old(searchTerm)
      ensures isSubmitting == old(isSubmitting) && editingUser == old(editingUser)
      ensures viewingUser == old(viewingUser) && isEditFormOpen == old(isEditFormOpen)
    {
      error := None;
    }

    /** `handleDeleteUser` after its `await`. The submitting flag is never
        touched by a delete. */
    method EndDeleteUser(id: string, ok: bool)
      modifies this
      ensures filteredUsers == SearchUsers(users, searchTerm)
      ensures ok ==> users == DeleteUsers(old(users), id) && error == old(error)
      ensures !ok ==> users == old(users) && error == Some(DeleteFailedMessage)
      ensures isSubmitting == old(isSubmitting) && searchTerm == old(searchTerm)
      ensures editingUser == old(editingUser) && viewingUser == old(viewingUser)
      ensures isEditFormOpen == old(isEditFormOpen)
    {
      if ok {
        users := Filter(users, KeepsOtherIds(id));
      } else {
        error := Some(DeleteFailedMessage);
      }
      RefreshSearch();
    }

    /** The search effect, run whenever the list or the term changes. */
    method RefreshSearch()
      modifies this
      ensures filteredUsers == SearchUsers(users, searchTerm)
      ensures users == old(users) && searchTerm == old(searchTerm) && isSubmitting == old(isSubmitting)
      ensures editingUser == old(editingUser) && viewingUser == old(viewingUser)
      ensures isEditFormOpen == old(isEditFormOpen) && error == old(error)
    {
      filteredUsers := SearchUsers(users, searchTerm);
    }
  }
}
