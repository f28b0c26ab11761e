/**
 * The user table of the admin console, kept in component state: search and
 * filters, create with the next free id, update by id, delete by id, and the
 * form and dialogs around them (src/pages/admin/Users.tsx).
 */
module AdminUsers {
  import opened Wrappers
  import opened Text
  import opened Seqs

  datatype User = User(id: int, name: string, email: string, phone: string,
                       role: string, status: string, dateCreated: string)

  /**
   * The form's `Partial<User>`. `id` and `dateCreated` are there only after
   * `handleEdit` copied a whole user into it; the text fields and the two selects
   * always hold a string.
   */
  datatype UserForm = UserForm(id: Option<int>, name: string, email: string, phone: string,
                               role: string, status: string, dateCreated: Option<string>)

  /** The inputs of the user form: the name, email and phone inputs and the role and status selects. */
  datatype FormField = NameField | EmailField | PhoneField | RoleField | StatusField

  /**
   * `{ ...prev, [field]: value }`: the named field takes the value, and every
   * other field, the id and the creation date included, stays as it was.
   */
  function WithField(form: UserForm, field: FormField, value: string): (r: UserForm)
    ensures r.id == form.id && r.dateCreated == form.dateCreated
    ensures r.name == (if field == NameField then value else form.name)
    ensures r.email == (if field == EmailField then value else form.email)
    ensures r.phone == (if field == PhoneField then value else form.phone)
    ensures r.role == (if field == RoleField then value else form.role)
    ensures r.status == (if field == StatusField then value else form.status)
  {
    match field
    case NameField => form.(name := value)
    case EmailField => form.(email := value)
    case PhoneField => form.(phone := value)
    case RoleField => form.(role := value)
    case StatusField => form.(status := value)
  }

  /**
   * The order of two changes matters only when they hit the same field: then
   * the later value wins; changes to different fields commute.
   */
  lemma FieldChangesCompose(form: UserForm, f1: FormField, v1: string, f2: FormField, v2: string)
    ensures f1 == f2 ==> WithField(WithField(form, f1, v1), f2, v2) == WithField(form, f2, v2)
    ensures f1 != f2 ==> WithField(WithField(form, f1, v1), f2, v2) == WithField(WithField(form, f2, v2), f1, v1)
  {
  }

  /** The form as `resetForm` leaves it. */
  const BlankForm := UserForm(None, "", "", "", "user", "pending", None)

  /** The five users the table starts with. */
  const SampleUsers: seq<User> := [
    User(1, "John Smith", "john@example.com", "(555) 123-4567", "admin", "active", "2025-01-15"),
    User(2, "Sarah Johnson", "sarah@example.com", "(555) 234-5678", "therapist", "active", "2025-02-10"),
    User(3, "Michael Brown", "michael@example.com", "(555) 345-6789", "user", "active", "2025-03-05"),
    User(4, "Emily Davis", "emily@example.com", "(555) 456-7890", "user", "inactive", "2025-03-22"),
    User(5, "James Wilson", "james@example.com", "(555) 567-8901", "user", "pending", "2025-04-18")
  ]

  /** No two users share an id. */
  predicate UniqueIds(users: seq<User>) {
    forall i, j :: 0 <= i < j < |users| ==> users[i].id != users[j].id
  }

  // ------------------------------------------------------------- filters

  /** The search box: a case-insensitive substring of the name or of the email. */
  predicate MatchesSearch(u: User, term: string) {
    Contains(Lower(u.name), Lower(term)) || Contains(Lower(u.email), Lower(term))
  }

  /** A user passes every filter that is switched on: an empty term and "all" switch a filter off. */
  predicate PassesFilters(u: User, term: string, status: string, role: string) {
    && (term == "" || MatchesSearch(u, term))
    && (status == "all" || u.status == status)
    && (role == "all" || u.role == role)
  }

  /** The filter effect: search, then status, then role, each applied only when set. */
  function FilterUsers(users: seq<User>, term: string, status: string, role: string): seq<User> {
    var bySearch := if term != "" then Filter(users, (u: User) => MatchesSearch(u, term)) else users;
    var byStatus := if status != "all" then Filter(bySearch, (u: User) => u.status == status) else bySearch;
    if role != "all" then Filter(byStatus, (u: User) => u.role == role) else byStatus
  }

  /** Applying a filter only when `on` is filtering by "off, or passes". */
  lemma FilterWhen(s: seq<User>, on: bool, p: User -> bool, q: User -> bool)
    requires forall u :: q(u) == (!on || p(u))
    ensures (if on then Filter(s, p) else s) == Filter(s, q)
  {
    if on {
      FilterAgreeing(s, p, q);
    } else {
      FilterKeepsAll(s, q);
    }
  }

  /** The three steps together are one filter by `PassesFilters`. */
  lemma FilterUsersIsOneFilter(users: seq<User>, term: string, status: string, role: string)
    ensures FilterUsers(users, term, status, role) == Filter(users, (u: User) => PassesFilters(u, term, status, role))
  {
    var pSearch := (u: User) => term == "" || MatchesSearch(u, term);
    var pStatus := (u: User) => status == "all" || u.status == status;
    var pRole := (u: User) => role == "all" || u.role == role;
    var pSearchStatus := (u: User) => pSearch(u) && pStatus(u);
    FilterWhen(users, term != "", (u: User) => MatchesSearch(u, term), pSearch);
    var s1 := Filter(users, pSearch);
    FilterWhen(s1, status != "all", (u: User) => u.status == status, pStatus);
    FilterTwice(users, pSearch, pStatus, pSearchStatus);
    var s2 := Filter(users, pSearchStatus);
    FilterWhen(s2, role != "all", (u: User) => u.role == role, pRole);
    FilterTwice(users, pSearchStatus, pRole, (u: User) => PassesFilters(u, term, status, role));
  }

  /**
   * The filtered list keeps the table's order, holds exactly the users that pass
   * every active filter, and is the whole table when no filter is active.
   */
  lemma FilterUsersSpec(users: seq<User>, term: string, status: string, role: string)
    ensures IsSubsequence(FilterUsers(users, term, status, role), users)
    ensures forall i :: 0 <= i < |users| ==>
              (users[i] in FilterUsers(users, term, status, role) <==> PassesFilters(users[i], term, status, role))
    ensures forall u :: u in FilterUsers(users, term, status, role) ==> u in users && PassesFilters(u, term, status, role)
    ensures term == "" && status == "all" && role == "all" ==> FilterUsers(users, term, status, role) == users
    ensures forall u :: multiset(FilterUsers(users, term, status, role))[u] ==
                          if PassesFilters(u, term, status, role) then multiset(users)[u] else 0
  {
    FilterUsersIsOneFilter(users, term, status, role);
    if term == "" && status == "all" && role == "all" {
      FilterKeepsAll(users, (u: User) => PassesFilters(u, term, status, role));
    }
  }

  /** The list depends on the search term only through its lower-case form. */
  lemma SearchIgnoresCase(users: seq<User>, term1: string, term2: string, status: string, role: string)
    requires Lower(term1) == Lower(term2)
    ensures FilterUsers(users, term1, status, role) == FilterUsers(users, term2, status, role)
  {
    FilterUsersIsOneFilter(users, term1, status, role);
    FilterUsersIsOneFilter(users, term2, status, role);
    assert |term1| == |term2|;
    FilterAgreeing(users, (u: User) => PassesFilters(u, term1, status, role), (u: User) => PassesFilters(u, term2, status, role));
  }

  // -------------------------------------------------------------- create

  /** `Math.max(0, ...users.map(u => u.id))` */
  function MaxId(users: seq<User>): (m: int)
    ensures m >= 0
    ensures forall i :: 0 <= i < |users| ==> users[i].id <= m
    ensures m == 0 || exists i :: 0 <= i < |users| && users[i].id == m
  {
    if users == [] then 0
    else
      var rest := MaxId(users[1..]);
      if users[0].id > rest then users[0].id else rest
  }

  /**
   * The user a create adds. Its id is one more than the largest id and than 0, so
   * it is above every id in the table. The phone input always holds a string, so
   * `phone || ''` is the phone itself; an empty role or status falls back to "user"
   * and "pending"; `today` is the creation date.
   */
  function NewUser(users: seq<User>, form: UserForm, today: string): (u: User)
    ensures forall i :: 0 <= i < |users| ==> users[i].id < u.id
    ensures u.id == MaxId(users) + 1
    ensures u.id == 1 || exists i :: 0 <= i < |users| && users[i].id == u.id - 1
    ensures u.name == form.name && u.email == form.email && u.phone == form.phone
    ensures u.role == (if form.role == "" then "user" else form.role)
    ensures u.status == (if form.status == "" then "pending" else form.status)
    ensures u.dateCreated == today
  {
    User(MaxId(users) + 1, form.name, form.email, form.phone,
         if form.role == "" then "user" else form.role,
         if form.status == "" then "pending" else form.status,
         today)
  }

  /** `[...users, newUser]`: the table grows by one at the end and keeps its ids unique. */
  lemma CreateAppends(users: seq<User>, form: UserForm, today: string)
    requires UniqueIds(users)
    ensures var r := users + [NewUser(users, form, today)];
      && |r| == |users| + 1 && r[..|users|] == users
      && UniqueIds(r)
  {
    var r := users + [NewUser(users, form, today)];
    assert r[..|users|] == users;
  }

  // -------------------------------------------------------------- update

  /** `{ ...user, ...formData }`: every field the form holds replaces the user's. */
  function Merge(u: User, form: UserForm): User {
    User(form.id.GetOr(u.id), form.name, form.email, form.phone, form.role, form.status,
         form.dateCreated.GetOr(u.dateCreated))
  }

  /**
   * `users.map(...)`: the users whose id is the form's are merged with the form,
   * every other user is kept as it was, in the same place.
   */
  function UpdateUsers(users: seq<User>, form: UserForm): (r: seq<User>)
    requires form.id.Some?
    ensures |r| == |users|
    ensures forall i :: 0 <= i < |users| && users[i].id != form.id.value ==> r[i] == users[i]
    ensures forall i :: 0 <= i < |users| && users[i].id == form.id.value ==> r[i] == Merge(users[i], form)
    ensures forall i :: 0 <= i < |users| ==> r[i].id == users[i].id
  {
    if users == [] then []
    else [if users[0].id == form.id.value then Merge(users[0], form) else users[0]] + UpdateUsers(users[1..], form)
  }

  // -------------------------------------------------------------- delete

  /** `users.filter(user => user.id !== id)` */
  function RemoveUser(users: seq<User>, id: int): seq<User> {
    Filter(users, (u: User) => u.id != id)
  }

  /**
   * Delete takes out exactly the users with that id and keeps the others in order;
   * deleting an id nobody has changes nothing.
   */
  lemma RemoveUserSpec(users: seq<User>, id: int)
    ensures IsSubsequence(RemoveUser(users, id), users)
    ensures forall i :: 0 <= i < |RemoveUser(users, id)| ==> RemoveUser(users, id)[i].id != id
    ensures forall i :: 0 <= i < |users| && users[i].id != id ==> users[i] in RemoveUser(users, id)
    ensures (forall i :: 0 <= i < |users| ==> users[i].id != id) ==> RemoveUser(users, id) == users
    ensures UniqueIds(users) ==> UniqueIds(RemoveUser(users, id))
    ensures forall u :: multiset(RemoveUser(users, id))[u] == if u.id != id then multiset(users)[u] else 0
  {
    if forall i :: 0 <= i < |users| ==> users[i].id != id {
      FilterKeepsAll(users, (u: User) => u.id != id);
    }
    if UniqueIds(users) {
      SubsequenceKeepsUniqueIds(RemoveUser(users, id), users);
    }
  }

  lemma {:induction false} SubsequenceMembers(a: seq<User>, b: seq<User>)
    requires IsSubsequence(a, b)
    ensures forall i :: 0 <= i < |a| ==> a[i] in b
    decreases |b|
  {
    if a != [] {
      if a[0] == b[0] && IsSubsequence(a[1..], b[1..]) {
        SubsequenceMembers(a[1..], b[1..]);
        forall i | 1 <= i < |a| ensures a[i] in b {
          assert a[1..][i - 1] == a[i];
        }
      } else {
        SubsequenceMembers(a, b[1..]);
      }
    }
  }

  lemma {:induction false} SubsequenceKeepsUniqueIds(a: seq<User>, b: seq<User>)
    requires IsSubsequence(a, b) && UniqueIds(b)
    ensures UniqueIds(a)
    decreases |b|
  {
    if a != [] {
      assert UniqueIds(b[1..]) by {
        forall i, j | 0 <= i < j < |b| - 1 ensures b[1..][i].id != b[1..][j].id {
          assert b[1..][i] == b[i + 1] && b[1..][j] == b[j + 1];
        }
      }
      if a[0] == b[0] && IsSubsequence(a[1..], b[1..]) {
        SubsequenceKeepsUniqueIds(a[1..], b[1..]);
        SubsequenceMembers(a[1..], b[1..]);
        forall i, j | 0 <= i < j < |a| ensures a[i].id != a[j].id {
          assert a[j] == a[1..][j - 1];
          if i == 0 {
            var k :| 0 <= k < |b| - 1 && b[1..][k] == a[j];
            assert b[k + 1] == a[j];
          } else {
            assert a[i] == a[1..][i - 1];
          }
        }
      } else {
        SubsequenceKeepsUniqueIds(a, b[1..]);
      }
    }
  }

  // ------------------------------------------------------------- badges

  const Green := "bg-green-100 text-green-800"
  const Gray := "bg-gray-100 text-gray-800"
  const Yellow := "bg-yellow-100 text-yellow-800"
  const Purple := "bg-purple-100 text-purple-800"
  const Blue := "bg-blue-100 text-blue-800"

  /** `getStatusColor`: active and pending have their own colour; inactive and anything
      else are gray. */
  function StatusColor(status: string): (c: string)
    ensures c == Gray <==> status != "active" && status != "pending"
    ensures c != Gray ==> c == (if status == "active" then Green else Yellow)
  {
    match status
    case "active" => Green
    case "inactive" => Gray
    case "pending" => Yellow
    case _ => Gray
  }

  /** `getRoleBadge`: admin and therapist have their own colour; user and anything else
      are gray. */
  function RoleBadge(role: string): (c: string)
    ensures c == Gray <==> role != "admin" && role != "therapist"
    ensures c != Gray ==> c == (if role == "admin" then Purple else Blue)
  {
    match role
    case "admin" => Purple
    case "therapist" => Blue
    case "user" => Gray
    case _ => Gray
  }

  // --------------------------------------------------------------- page

  /** The `Users` component: the table, the filters, the form and the delete dialog. */
  class UsersPage {
    var users: seq<User>
    var filteredUsers: seq<User>
    var searchTerm: string
    var statusFilter: string
    var roleFilter: string
    var isDeleteDialogOpen: bool
    var userToDelete: Option<User>
    var formData: UserForm
    var isEditing: bool
    var isFormOpen: bool

    /** Ids stay unique through every operation. */
    ghost predicate Valid()
      reads this
    {
      UniqueIds(users)
    }

    constructor()
      ensures Valid()
      ensures users == SampleUsers && filteredUsers == SampleUsers
      ensures searchTerm == "" && statusFilter == "all" && roleFilter == "all"
      ensures !isDeleteDialogOpen && userToDelete == None
      ensures formData == BlankForm && !isEditing && !isFormOpen
    {
      users := SampleUsers;
      filteredUsers := SampleUsers;
      searchTerm := "";
      statusFilter := "all";
      roleFilter := "all";
      isDeleteDialogOpen := false;
      userToDelete := None;
      formData := BlankForm;
      isEditing := false;
      isFormOpen := false;
    }

    /** The effect that recomputes the visible list whenever the table or a filter changes. */
    method ApplyFilters()
      modifies this`filteredUsers
      ensures filteredUsers == FilterUsers(users, searchTerm, statusFilter, roleFilter)
    {
      var term, status, role := searchTerm, statusFilter, roleFilter;
      var result := users;
      if term != "" {
        result := Filter(result, (u: User) => MatchesSearch(u, term));
      }
      if status != "all" {
        result := Filter(result, (u: User) => u.status == status);
      }
      if role != "all" {
        result := Filter(result, (u: User) => u.role == role);
      }
      filteredUsers := result;
    }

    /** The search box and the two filter selects each set their own value. */
    method HandleSearch(term: string)
      modifies this`searchTerm
      ensures searchTerm == term
    {
      searchTerm := term;
    }

    method HandleStatusFilterChange(status: string)
      modifies this`statusFilter
      ensures statusFilter == status
    {
      statusFilter := status;
    }

    method HandleRoleFilterChange(role: string)
      modifies this`roleFilter
      ensures roleFilter == role
    {
      roleFilter := role;
    }

    /**
     * `handleInputChange` and `handleSelectChange`: an input or select sets its
     * own field. No input reaches the id, so whether a submit updates an
     * existing user stays as it was.
     */
    method HandleFormChange(field: FormField, value: string)
      modifies this`formData
      ensures formData == WithField(old(formData), field, value)
      ensures formData.id == old(formData.id)
      ensures EditsExisting() <==> old(EditsExisting())
    {
      formData := WithField(formData, field, value);
    }

    method ResetForm()
      modifies this`formData, this`isEditing
      ensures formData == BlankForm && !isEditing
    {
      formData := BlankForm;
      isEditing := false;
    }

    /** `isEditing && formData.id`: an id of 0 counts as no id. */
    predicate EditsExisting()
      reads this
    {
      isEditing && formData.id.Some? && formData.id.value != 0
    }

    /**
     * Submitting with an empty name or email changes nothing. Otherwise an edit
     * merges the form into the users with its id and anything else appends a new
     * user; then the form closes and is reset.
     */
    method HandleSubmit(today: string)
      requires Valid()
      modifies this`users, this`isFormOpen, this`formData, this`isEditing
      ensures Valid()
      ensures old(formData.name) == "" || old(formData.email) == "" ==>
        && users == old(users) && isFormOpen == old(isFormOpen)
        && formData == old(formData) && isEditing == old(isEditing)
      ensures old(formData.name) != "" && old(formData.email) != "" ==>
        && users == (if old(EditsExisting()) then UpdateUsers(old(users), old(formData))
                     else old(users) + [NewUser(old(users), old(formData), today)])
        && !isFormOpen && formData == BlankForm && !isEditing
    {
      if formData.name == "" || formData.email == "" {
        return;
      }
      if EditsExisting() {
        var updated := UpdateUsers(users, formData);
        assert UniqueIds(updated) by {
          forall i, j | 0 <= i < j < |updated| ensures updated[i].id != updated[j].id {
            assert updated[i].id == users[i].id && updated[j].id == users[j].id;
          }
        }
        users := updated;
      } else {
        CreateAppends(users, formData, today);
        users := users + [NewUser(users, formData, today)];
      }
      isFormOpen := false;
      ResetForm();
    }

    /** `handleEdit`: the form takes the whole user and opens in edit mode. */
    method HandleEdit(u: User)
      modifies this`formData, this`isEditing, this`isFormOpen
      ensures formData == UserForm(Some(u.id), u.name, u.email, u.phone, u.role, u.status, Some(u.dateCreated))
      ensures isEditing && isFormOpen
    {
      formData := UserForm(Some(u.id), u.name, u.email, u.phone, u.role, u.status, Some(u.dateCreated));
      isEditing := true;
      isFormOpen := true;
    }

    /** `handleDelete`: remember the user and ask for confirmation. */
    method HandleDelete(u: User)
      modifies this`userToDelete, this`isDeleteDialogOpen
      ensures userToDelete == Some(u) && isDeleteDialogOpen
    {
      userToDelete := Some(u);
      isDeleteDialogOpen := true;
    }

    /**
     * `confirmDelete`: with a user to delete, every user with its id goes; with
     * none the table stays. Either way the dialog closes and nobody is selected.
     */
    method ConfirmDelete()
      requires Valid()
      modifies this`users, this`isDeleteDialogOpen, this`userToDelete
      ensures Valid()
      ensures users == if old(userToDelete).Some? then RemoveUser(old(users), old(userToDelete).value.id)
                       else old(users)
      ensures !isDeleteDialogOpen && userToDelete == None
    {
      if userToDelete.Some? {
        RemoveUserSpec(users, userToDelete.value.id);
        users := RemoveUser(users, userToDelete.value.id);
      }
      isDeleteDialogOpen := false;
      userToDelete := None;
    }
  }
}
