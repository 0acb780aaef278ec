/** The user dashboard (frontend/src/pages/UserDashboard.jsx): a client-side list
    of users with search, delete, and a modal form that either edits a user or adds one. */
module UserDashboard {
  import opened Common
  import opened Text
  import opened Lists

  datatype User = User(id: int, name: string, email: string, role: string, status: string)

  /** The modal form. The id a copied user carries is always overridden on submit,
      so the form holds only the editable fields. */
  datatype UserForm = UserForm(name: string, email: string, role: string, status: string)

  const BlankForm: UserForm := UserForm("", "", "", "Active")

  function FormOf(u: User): UserForm
  {
    UserForm(u.name, u.email, u.role, u.status)
  }

  /** `{ ...newUser, id }`. */
  function WithId(f: UserForm, id: int): User
  {
    User(id, f.name, f.email, f.role, f.status)
  }

  /** The five users the dashboard starts with. */
  function InitialUsers(): (us: seq<User>)
    ensures |us| == 5
    ensures forall i :: 0 <= i < 5 ==> us[i].id == i + 1
  {
    [User(1, "John Doe", "john@example.com", "Project Manager", "Active"),
     User(2, "Jane Smith", "jane@example.com", "Site Engineer", "Active"),
     User(3, "Robert Johnson", "robert@example.com", "Contractor", "Inactive"),
     User(4, "Emily Davis", "emily@example.com", "Administrator", "Active"),
     User(5, "Michael Wilson", "michael@example.com", "Foreman", "Active")]
  }

  /** The search callback: some lower-cased field contains the lower-cased term. */
  predicate MatchesTerm(u: User, term: string)
  {
    var t := ToLower(term);
    Contains(ToLower(u.name), t) || Contains(ToLower(u.email), t) || Contains(ToLower(u.role), t)
  }

  function MatchesBy(term: string): User -> bool
  {
    (u: User) => MatchesTerm(u, term)
  }

  /** `filteredUsers`. */
  function FilteredUsers(users: seq<User>, term: string): seq<User>
  {
    Filter(users, MatchesBy(term))
  }

  /** A user is listed exactly when its name, email or role contains the term
      (ignoring case), and the list keeps the original order. */
  lemma FilteredUsersSpec(users: seq<User>, term: string, u: User)
    ensures IsSubsequence(FilteredUsers(users, term), users)
    ensures u in FilteredUsers(users, term) <==> u in users && MatchesTerm(u, term)
  {
    FilterIsSubsequence(users, MatchesBy(term));
    FilterMembership(users, MatchesBy(term), u);
  }

  /** An empty term lists every user. */
  lemma EmptyTermListsAll(users: seq<User>)
    ensures FilteredUsers(users, "") == users
  {
    forall i | 0 <= i < |users| ensures MatchesTerm(users[i], "") {
      ContainsEmpty(ToLower(users[i].name));
    }
    FilterKeepsAll(users, MatchesBy(""));
  }

  function HasOtherId(id: int): User -> bool
  {
    (u: User) => u.id != id
  }

  /** `users.filter(user => user.id !== userId)`. */
  function DeleteUser(users: seq<User>, id: int): seq<User>
  {
    Filter(users, HasOtherId(id))
  }

  /** Delete removes every user with the id and keeps the others in order. */
  lemma DeleteUserSpec(users: seq<User>, id: int, u: User)
    ensures IsSubsequence(DeleteUser(users, id), users)
    ensures u in DeleteUser(users, id) <==> u in users && u.id != id
  {
    FilterIsSubsequence(users, HasOtherId(id));
    FilterMembership(users, HasOtherId(id), u);
  }

  function EditWith(id: int, f: UserForm): User -> User
  {
    (u: User) => if u.id == id then WithId(f, u.id) else u
  }

  /** `prevUsers.map(user => user.id === editingUser.id ? { ...newUser, id: user.id } : user)`. */
  function EditUser(users: seq<User>, id: int, f: UserForm): seq<User>
  {
    Map(users, EditWith(id, f))
  }

  /** Editing keeps the length and every id; a user with the edited id takes the
      form's values; every other user is unchanged. */
  lemma EditUserSpec(users: seq<User>, id: int, f: UserForm, i: int)
    requires 0 <= i < |users|
    ensures |EditUser(users, id, f)| == |users|
    ensures EditUser(users, id, f)[i].id == users[i].id
    ensures users[i].id == id ==> FormOf(EditUser(users, id, f)[i]) == f
    ensures users[i].id != id ==> EditUser(users, id, f)[i] == users[i]
  {
  }

  /** Editing leaves the list of ids exactly as it was. */
  lemma EditKeepsIds(users: seq<User>, id: int, f: UserForm)
    ensures Map(EditUser(users, id, f), (u: User) => u.id) == Map(users, (u: User) => u.id)
  {
  }

  /** `[...prevUsers, { ...newUser, id: prevUsers.length + 1 }]`. */
  function AddUser(users: seq<User>, f: UserForm): (r: seq<User>)
    ensures |r| == |users| + 1 && r[..|users|] == users
    ensures r[|users|] == WithId(f, |users| + 1)
  {
    users + [WithId(f, |users| + 1)]
  }

  /** Ids need not stay unique: after deleting user 1 of the initial list, the next
      user added gets id 5, which Michael Wilson already has. */
  lemma AddAfterDeleteRepeatsId(f: UserForm)
    ensures var us := AddUser(DeleteUser(InitialUsers(), 1), f);
      |us| == 5 && us[3].id == 5 && us[4].id == 5
  {
    var init := InitialUsers();
    var rest := init[1..];
    FilterCons(init[0], rest, HasOtherId(1));
    FilterKeepsAll(rest, HasOtherId(1));
    assert init == [init[0]] + rest;
  }

  /** The dashboard's state. */
  class UserDashboardScreen {
    var users: seq<User>
    var searchTerm: string
    var isModalOpen: bool
    var editingUser: Option<User>
    var newUser: UserForm

    constructor ()
      ensures users == InitialUsers() && searchTerm == "" && !isModalOpen
      ensures editingUser.None? && newUser == BlankForm
    {
      users := InitialUsers();
      searchTerm := "";
      isModalOpen := false;
      editingUser := None;
      newUser := BlankForm;
    }

    function Listed(): seq<User>
      reads this
    {
      FilteredUsers(users, searchTerm)
    }

    method SetSearchTerm(term: string)
      modifies this`searchTerm
      ensures searchTerm == term
      ensures Listed() == FilteredUsers(users, term)
    {
      searchTerm := term;
    }

    /** `handleOpenModal`: with no user a blank form with status Active, with a user
        a copy of it. */
    method OpenModal(user: Option<User>)
      modifies this`editingUser, this`newUser, this`isModalOpen
      ensures editingUser == user && isModalOpen
      ensures newUser == (if user.Some? then FormOf(user.value) else BlankForm)
    {
      editingUser := user;
      newUser := if user.Some? then FormOf(user.value) else BlankForm;
      isModalOpen := true;
    }

    method CloseModal()
      modifies this`isModalOpen
      ensures !isModalOpen
    {
      isModalOpen := false;
    }

    /** The modal's inputs. */
    method SetForm(f: UserForm)
      modifies this`newUser
      ensures newUser == f
    {
      newUser := f;
    }

    /** `handleDeleteUser`. */
    method Delete(id: int)
      modifies this`users
      ensures users == DeleteUser(old(users), id)
    {
      users := DeleteUser(users, id);
    }

    /** `handleSubmit`: edit the user being edited, or add a new one; then close the modal. */
    method Submit()
      modifies this`users, this`isModalOpen
      ensures editingUser.Some? ==> users == EditUser(old(users), editingUser.value.id, newUser)
      ensures editingUser.None? ==> users == AddUser(old(users), newUser)
      ensures !isModalOpen
    {
      if editingUser.Some? {
        users := EditUser(users, editingUser.value.id, newUser);
      } else {
        users := AddUser(users, newUser);
      }
      isModalOpen := false;
    }
  }
}
