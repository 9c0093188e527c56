/**
 * The team page of the admin interface (frontend/src/pages/admin/AdminTeam.jsx).
 *
 * The page keeps its team members, the edit form and the member being edited as
 * component state. Every change replaces the list by a new one computed from the old:
 * create puts a record in front, update rewrites the records with the edited id,
 * delete and the search filter keep a sub-list, toggle flips one flag. The functions
 * below are those transforms; `TeamPage` is the component state they are applied to.
 */
module Team {
  import opened Wrappers

  datatype Role = Admin | Manager | Agent

  /** The role drop-down of the search bar: `'all'` or one role. */
  datatype RoleFilter = AllRoles | OnlyRole(role: Role)

  /**
   * A team member. `password` is absent from the initial records and present on
   * every record the form has written.
   */
  datatype TeamMember = TeamMember(
    id: string,
    fullName: string,
    email: string,
    phone: string,
    username: string,
    password: Option<string>,
    role: Role,
    department: string,
    joiningDate: string,
    isActive: bool,
    lastLogin: Option<string>,
    packagesCreated: int,
    clientsManaged: int,
    avatar: Option<string>)

  /** The add/edit dialog's fields. */
  datatype TeamForm = TeamForm(
    fullName: string,
    email: string,
    phone: string,
    username: string,
    password: string,
    role: Role,
    department: string,
    joiningDate: string,
    isActive: bool)

  /** One edit of one dialog field, as `handleInputChange(field, value)` receives it. */
  datatype FormField =
    | FullName(s: string) | Email(s: string) | Phone(s: string) | Username(s: string)
    | Password(s: string) | RoleField(r: Role) | Department(s: string) | JoiningDate(s: string)
    | IsActive(b: bool)

  // ---------------------------------------------------------------- sub-lists

  /** `s.filter(p)`: the elements that pass `p`, in their order. */
  function Keep<T(!new)>(s: seq<T>, p: T -> bool): (r: seq<T>)
    ensures |r| <= |s|
    ensures forall x :: x in r <==> x in s && p(x)
  {
    if s == [] then []
    else if p(s[0]) then [s[0]] + Keep(s[1..], p)
    else Keep(s[1..], p)
  }

  /** `r` is `s` with some elements left out. */
  predicate IsSubsequence<T(==)>(r: seq<T>, s: seq<T>)
    decreases |s|
  {
    if r == [] then true
    else if s == [] then false
    else IsSubsequence(r, s[1..]) || (r[0] == s[0] && IsSubsequence(r[1..], s[1..]))
  }

  lemma {:induction false} KeepIsSubsequence<T(!new)>(s: seq<T>, p: T -> bool)
    ensures IsSubsequence(Keep(s, p), s)
  {
    if s != [] {
      KeepIsSubsequence(s[1..], p);
    }
  }

  /** Filtering a concatenation filters each part. */
  lemma {:induction false} KeepConcat<T(!new)>(a: seq<T>, b: seq<T>, p: T -> bool)
    ensures Keep(a + b, p) == Keep(a, p) + Keep(b, p)
  {
    if a != [] {
      assert (a + b)[1..] == a[1..] + b;
      KeepConcat(a[1..], b, p);
    } else {
      assert a + b == b;
    }
  }

  /** A filter that every element passes keeps the whole list. */
  lemma {:induction false} KeepEverything<T(!new)>(s: seq<T>, p: T -> bool)
    requires forall x :: x in s ==> p(x)
    ensures Keep(s, p) == s
  {
    if s != [] {
      assert forall x :: x in s[1..] ==> x in s;
      KeepEverything(s[1..], p);
    }
  }

  /** Two filters that agree on every element keep the same sub-list. */
  lemma {:induction false} KeepAgreeing<T(!new)>(s: seq<T>, p: T -> bool, q: T -> bool)
    requires forall x :: x in s ==> p(x) == q(x)
    ensures Keep(s, p) == Keep(s, q)
  {
    if s != [] {
      assert forall x :: x in s[1..] ==> x in s;
      KeepAgreeing(s[1..], p, q);
    }
  }

  /** Two filters no element passes both of keep at most the whole list between them. */
  lemma {:induction false} KeepDisjoint<T(!new)>(s: seq<T>, p: T -> bool, q: T -> bool)
    requires forall x :: x in s ==> !(p(x) && q(x))
    ensures |Keep(s, p)| + |Keep(s, q)| <= |s|
  {
    if s != [] {
      assert forall x :: x in s[1..] ==> x in s;
      KeepDisjoint(s[1..], p, q);
    }
  }

  // ---------------------------------------------------------------- the form

  /**
   * The browser's `required` checks on the dialog: full name, email, phone and username
   * must be filled in, and so must the password when a new member is being added.
   */
  predicate Submittable(f: TeamForm, editing: bool)
  {
    f.fullName != "" && f.email != "" && f.phone != "" && f.username != "" && (editing || f.password != "")
  }

  /** Whatever can be added can also be saved as an edit: editing only drops the password check. */
  lemma EditAcceptsWhatAddAccepts(f: TeamForm)
    ensures Submittable(f, false) ==> Submittable(f, true)
    ensures Submittable(f, true) && f.password != "" ==> Submittable(f, false)
  {
  }

  /** Department, joining date, role and the active flag are never required. */
  lemma OptionalFieldsNotRequired(f: TeamForm, department: string, joiningDate: string, role: Role, isActive: bool, editing: bool)
    ensures Submittable(f.(department := department, joiningDate := joiningDate, role := role, isActive := isActive), editing)
            == Submittable(f, editing)
  {
  }

  /** Clearing any one required field makes the form unsubmittable. */
  lemma RequiredFieldsRequired(f: TeamForm, editing: bool)
    ensures !Submittable(f.(fullName := ""), editing) && !Submittable(f.(email := ""), editing)
    ensures !Submittable(f.(phone := ""), editing) && !Submittable(f.(username := ""), editing)
    ensures !Submittable(f.(password := ""), false)
  {
  }

  /** The form `resetForm` restores: every text field blank, role agent, active. */
  function EmptyForm(): (r: TeamForm)
    ensures r.fullName == r.email == r.phone == r.username == r.password == r.department == r.joiningDate == ""
    ensures r.role == Agent && r.isActive
    ensures !Submittable(r, true) && !Submittable(r, false)
  {
    TeamForm("", "", "", "", "", Agent, "", "", true)
  }

  /**
   * `handleEdit`: the member's fields, with the password left blank. Saving it back
   * unchanged reproduces the member with the corrected merge, and blanks the password
   * with the merge as written.
   */
  function FormOf(m: TeamMember): (r: TeamForm)
    ensures r.password == ""
    ensures Edited(m, r) == m
    ensures EditedAsWritten(m, r) == m.(password := Some(""))
  {
    TeamForm(m.fullName, m.email, m.phone, m.username, "", m.role, m.department, m.joiningDate, m.isActive)
  }

  /** `{ ...form, [field]: value }`: the named field takes the value, the others stay. */
  function WithField(f: TeamForm, field: FormField): (r: TeamForm)
    ensures field.FullName? ==> r.fullName == field.s && r.(fullName := f.fullName) == f
    ensures field.Email? ==> r.email == field.s && r.(email := f.email) == f
    ensures field.Phone? ==> r.phone == field.s && r.(phone := f.phone) == f
    ensures field.Username? ==> r.username == field.s && r.(username := f.username) == f
    ensures field.Password? ==> r.password == field.s && r.(password := f.password) == f
    ensures field.RoleField? ==> r.role == field.r && r.(role := f.role) == f
    ensures field.Department? ==> r.department == field.s && r.(department := f.department) == f
    ensures field.JoiningDate? ==> r.joiningDate == field.s && r.(joiningDate := f.joiningDate) == f
    ensures field.IsActive? ==> r.isActive == field.b && r.(isActive := f.isActive) == f
  {
    match field
    case FullName(s) => f.(fullName := s)
    case Email(s) => f.(email := s)
    case Phone(s) => f.(phone := s)
    case Username(s) => f.(username := s)
    case Password(s) => f.(password := s)
    case RoleField(role) => f.(role := role)
    case Department(s) => f.(department := s)
    case JoiningDate(s) => f.(joiningDate := s)
    case IsActive(b) => f.(isActive := b)
  }

  // ---------------------------------------------------------------- create, update, delete, toggle

  /** The record `handleSubmit` creates: the form's fields under a fresh id, no history, no avatar. */
  function NewMember(id: string, f: TeamForm): (m: TeamMember)
    ensures m.id == id && m.packagesCreated == 0 && m.clientsManaged == 0
    ensures m.lastLogin.None? && m.avatar.None?
    ensures FormOf(m) == f.(password := "") && m.password == Some(f.password)
  {
    TeamMember(id, f.fullName, f.email, f.phone, f.username, Some(f.password), f.role, f.department,
               f.joiningDate, f.isActive, None, 0, 0, None)
  }

  /**
   * `{ ...member, ...teamForm, packagesCreated, clientsManaged }` as the page writes it:
   * the form's password replaces the stored one even when it was left blank.
   */
  function EditedAsWritten(m: TeamMember, f: TeamForm): (r: TeamMember)
    ensures r.id == m.id && r.packagesCreated == m.packagesCreated && r.clientsManaged == m.clientsManaged
    ensures r.lastLogin == m.lastLogin && r.avatar == m.avatar
    ensures r.fullName == f.fullName && r.email == f.email && r.phone == f.phone && r.username == f.username
    ensures r.role == f.role && r.department == f.department && r.joiningDate == f.joiningDate
    ensures r.isActive == f.isActive
    ensures r.password == Some(f.password)
  {
    m.(fullName := f.fullName, email := f.email, phone := f.phone, username := f.username,
       password := Some(f.password), role := f.role, department := f.department,
       joiningDate := f.joiningDate, isActive := f.isActive)
  }

  /** The same merge, keeping the stored password when the form's is blank. */
  function Edited(m: TeamMember, f: TeamForm): (r: TeamMember)
    ensures r.id == m.id && r.packagesCreated == m.packagesCreated && r.clientsManaged == m.clientsManaged
    ensures r.lastLogin == m.lastLogin && r.avatar == m.avatar
    ensures r.fullName == f.fullName && r.email == f.email && r.phone == f.phone && r.username == f.username
    ensures r.role == f.role && r.department == f.department && r.joiningDate == f.joiningDate
    ensures r.isActive == f.isActive
    ensures r.password == (if f.password == "" then m.password else Some(f.password))
  {
    m.(fullName := f.fullName, email := f.email, phone := f.phone, username := f.username,
       password := if f.password == "" then m.password else Some(f.password), role := f.role,
       department := f.department, joiningDate := f.joiningDate, isActive := f.isActive)
  }

  /**
   * The update branch of `handleSubmit` as written: like `UpdateMember`, except that
   * every edited member takes the form's password, blank or not.
   */
  function UpdateMemberAsWritten(ms: seq<TeamMember>, id: string, f: TeamForm): (r: seq<TeamMember>)
    ensures |r| == |ms|
    ensures forall i :: 0 <= i < |ms| && ms[i].id != id ==> r[i] == ms[i]
    ensures forall i :: 0 <= i < |ms| && ms[i].id == id ==>
              && r[i].id == id && FormOf(r[i]) == f.(password := "")
              && r[i].packagesCreated == ms[i].packagesCreated && r[i].clientsManaged == ms[i].clientsManaged
              && r[i].lastLogin == ms[i].lastLogin && r[i].avatar == ms[i].avatar
              && r[i].password == Some(f.password)
  {
    seq(|ms|, i requires 0 <= i < |ms| => if ms[i].id == id then EditedAsWritten(ms[i], f) else ms[i])
  }

  /**
   * The update branch of `handleSubmit` (with a blank password keeping the stored one):
   * each member with the edited id takes the form's fields and keeps its id, counters,
   * last login and avatar; every other member and the length stay as they were.
   */
  function UpdateMember(ms: seq<TeamMember>, id: string, f: TeamForm): (r: seq<TeamMember>)
    ensures |r| == |ms|
    ensures forall i :: 0 <= i < |ms| && ms[i].id != id ==> r[i] == ms[i]
    ensures forall i :: 0 <= i < |ms| && ms[i].id == id ==>
              && r[i].id == id && FormOf(r[i]) == f.(password := "")
              && r[i].packagesCreated == ms[i].packagesCreated && r[i].clientsManaged == ms[i].clientsManaged
              && r[i].lastLogin == ms[i].lastLogin && r[i].avatar == ms[i].avatar
              && r[i].password == (if f.password == "" then ms[i].password else Some(f.password))
  {
    seq(|ms|, i requires 0 <= i < |ms| => if ms[i].id == id then Edited(ms[i], f) else ms[i])
  }

  /** Opening a member for editing and saving the form untouched leaves the list as it was. */
  lemma EditThenSaveIsNoOp(ms: seq<TeamMember>, m: TeamMember)
    requires forall x :: x in ms && x.id == m.id ==> x == m
    ensures UpdateMember(ms, m.id, FormOf(m)) == ms
  {
    var r := UpdateMember(ms, m.id, FormOf(m));
    forall i | 0 <= i < |ms| ensures r[i] == ms[i] {
      if ms[i].id == m.id {
        assert ms[i] in ms;
      }
    }
  }

  /** As written, the same round trip blanks a stored password. */
  lemma PasswordBlankedAsWritten()
    ensures var m := TeamMember("5", "Sana Mir", "sana@example.com", "", "sana", Some("secret"), Agent,
                                "Sales", "", true, None, 0, 0, None);
      && UpdateMemberAsWritten([m], m.id, FormOf(m)) != [m]
      && UpdateMemberAsWritten([m], m.id, FormOf(m))[0].password == Some("")
  {
  }

  function NotId(id: string): TeamMember -> bool
  {
    (m: TeamMember) => m.id != id
  }

  /** `handleDelete`: drops the members with that id. */
  function RemoveMember(ms: seq<TeamMember>, id: string): (r: seq<TeamMember>)
    ensures forall m :: m in r <==> m in ms && m.id != id
    ensures IsSubsequence(r, ms)
  {
    KeepIsSubsequence(ms, NotId(id));
    Keep(ms, NotId(id))
  }

  /** Deletion works part by part, so the members kept stay in their original order. */
  lemma RemoveMemberConcat(a: seq<TeamMember>, b: seq<TeamMember>, id: string)
    ensures RemoveMember(a + b, id) == RemoveMember(a, id) + RemoveMember(b, id)
  {
    KeepConcat(a, b, NotId(id));
  }

  /** Deleting an id no member has changes nothing. */
  lemma RemoveAbsentMember(ms: seq<TeamMember>, id: string)
    requires forall m :: m in ms ==> m.id != id
    ensures RemoveMember(ms, id) == ms
  {
    KeepEverything(ms, NotId(id));
  }

  /** Deleting a member just created under a fresh id gives back the list before it. */
  lemma CreateThenDelete(ms: seq<TeamMember>, id: string, f: TeamForm)
    requires forall m :: m in ms ==> m.id != id
    ensures RemoveMember([NewMember(id, f)] + ms, id) == ms
  {
    RemoveMemberConcat([NewMember(id, f)], ms, id);
    RemoveAbsentMember(ms, id);
    assert RemoveMember([NewMember(id, f)], id) == [];
  }

  /** `toggleMemberStatus`: flips `isActive` on the members with that id. */
  function ToggleStatus(ms: seq<TeamMember>, id: string): (r: seq<TeamMember>)
    ensures |r| == |ms|
    ensures forall i :: 0 <= i < |ms| ==>
              r[i].isActive == (if ms[i].id == id then !ms[i].isActive else ms[i].isActive)
              && r[i].(isActive := ms[i].isActive) == ms[i]
  {
    seq(|ms|, i requires 0 <= i < |ms| => if ms[i].id == id then ms[i].(isActive := !ms[i].isActive) else ms[i])
  }

  /** Toggling the same member twice restores the list. */
  lemma ToggleTwice(ms: seq<TeamMember>, id: string)
    ensures ToggleStatus(ToggleStatus(ms, id), id) == ms
  {
    var once := ToggleStatus(ms, id);
    var twice := ToggleStatus(once, id);
    forall i | 0 <= i < |ms| ensures twice[i] == ms[i] {
      assert once[i].id == ms[i].id;
    }
  }

  // ---------------------------------------------------------------- search

  const UpperLetters := "ABCDEFGHIJKLMNOPQRSTUVWXYZ"
  const LowerLetters := "abcdefghijklmnopqrstuvwxyz"

  /** An ASCII capital becomes the small letter at the same place in the alphabet; anything else stays. */
  function LowerChar(c: char): (r: char)
    ensures forall i :: 0 <= i < 26 && c == UpperLetters[i] ==> r == LowerLetters[i]
    ensures c !in UpperLetters ==> r == c
    ensures r !in UpperLetters
  {
    if 'A' <= c <= 'Z' then (c as int + 32) as char else c
  }

  /**
   * `toLowerCase()`, on ASCII letters: the same length, every capital replaced by the
   * small letter at the same place in the alphabet, every other character kept.
   */
  function Lower(s: string): (r: string)
    ensures |r| == |s|
    ensures forall i, j :: 0 <= i < |s| && 0 <= j < 26 && s[i] == UpperLetters[j] ==> r[i] == LowerLetters[j]
    ensures forall i :: 0 <= i < |r| ==> r[i] !in UpperLetters
    ensures forall i :: 0 <= i < |s| && s[i] !in UpperLetters ==> r[i] == s[i]
  {
    seq(|s|, i requires 0 <= i < |s| => LowerChar(s[i]))
  }

  /** Lower-casing twice is lower-casing once. */
  lemma LowerIdempotent(s: string)
    ensures Lower(Lower(s)) == Lower(s)
  {
  }

  /** `s.includes(sub)` */
  predicate Contains(s: string, sub: string)
  {
    exists i :: 0 <= i <= |s| && sub <= s[i..]
  }

  /** The search test: the term, ignoring case, occurs in the full name, the email or the username. */
  predicate MatchesSearch(m: TeamMember, term: string)
  {
    var t := Lower(term);
    Contains(Lower(m.fullName), t) || Contains(Lower(m.email), t) || Contains(Lower(m.username), t)
  }

  predicate MatchesRole(m: TeamMember, f: RoleFilter)
  {
    f.AllRoles? || m.role == f.role
  }

  function Matches(term: string, f: RoleFilter): TeamMember -> bool
  {
    (m: TeamMember) => MatchesSearch(m, term) && MatchesRole(m, f)
  }

  /** `filteredMembers`: the members passing the search and the role filter, in list order. */
  function FilterMembers(ms: seq<TeamMember>, term: string, f: RoleFilter): (r: seq<TeamMember>)
    ensures forall m :: m in r <==> m in ms && MatchesSearch(m, term) && MatchesRole(m, f)
    ensures IsSubsequence(r, ms)
  {
    KeepIsSubsequence(ms, Matches(term, f));
    Keep(ms, Matches(term, f))
  }

  /** With no search term and every role, the filter shows the whole list. */
  lemma UnfilteredShowsAll(ms: seq<TeamMember>)
    ensures FilterMembers(ms, "", AllRoles) == ms
  {
    forall m | m in ms ensures Matches("", AllRoles)(m) {
      assert Lower("") == "" && "" <= Lower(m.fullName)[0..];
    }
    KeepEverything(ms, Matches("", AllRoles));
  }

  /** The search ignores the case of the term. */
  lemma SearchIgnoresTermCase(ms: seq<TeamMember>, term: string, f: RoleFilter)
    ensures FilterMembers(ms, Lower(term), f) == FilterMembers(ms, term, f)
  {
    LowerIdempotent(term);
    KeepAgreeing(ms, Matches(Lower(term), f), Matches(term, f));
  }

  // ---------------------------------------------------------------- stat cards

  datatype TeamStats = TeamStats(total: nat, admins: nat, managers: nat, active: nat)

  function HasRole(role: Role): TeamMember -> bool
  {
    (m: TeamMember) => m.role == role
  }

  function IsActiveMember(m: TeamMember): bool { m.isActive }

  /** The positions of `s` whose element passes `p`. */
  ghost function IndicesWhere<T>(s: seq<T>, p: T -> bool): set<int>
  {
    set i | 0 <= i < |s| && p(s[i])
  }

  /** A filter keeps as many elements as there are positions that pass it. */
  lemma {:induction false} KeepCountsIndices<T(!new)>(s: seq<T>, p: T -> bool)
    ensures |Keep(s, p)| == |IndicesWhere(s, p)|
    decreases |s|
  {
    if s != [] {
      var n := |s| - 1;
      var front := s[..n];
      assert s == front + [s[n]];
      KeepConcat(front, [s[n]], p);
      KeepCountsIndices(front, p);
      assert Keep([s[n]], p) == if p(s[n]) then [s[n]] else [];
      if p(s[n]) {
        assert IndicesWhere(s, p) == IndicesWhere(front, p) + {n};
      } else {
        assert IndicesWhere(s, p) == IndicesWhere(front, p);
      }
    }
  }

  /** The four stat cards: everyone, admins, managers, active members. */
  function StatsOf(ms: seq<TeamMember>): (r: TeamStats)
    ensures r.total == |ms|
    ensures r.admins == |set i | 0 <= i < |ms| && ms[i].role == Admin|
    ensures r.managers == |set i | 0 <= i < |ms| && ms[i].role == Manager|
    ensures r.active == |set i | 0 <= i < |ms| && ms[i].isActive|
    ensures r.admins + r.managers <= r.total
    ensures r.active <= r.total
  {
    KeepDisjoint(ms, HasRole(Admin), HasRole(Manager));
    KeepCountsIndices(ms, HasRole(Admin));
    KeepCountsIndices(ms, HasRole(Manager));
    KeepCountsIndices(ms, IsActiveMember);
    assert IndicesWhere(ms, HasRole(Admin)) == set i | 0 <= i < |ms| && ms[i].role == Admin;
    assert IndicesWhere(ms, HasRole(Manager)) == set i | 0 <= i < |ms| && ms[i].role == Manager;
    assert IndicesWhere(ms, IsActiveMember) == set i | 0 <= i < |ms| && ms[i].isActive;
    TeamStats(|ms|, |Keep(ms, HasRole(Admin))|, |Keep(ms, HasRole(Manager))|, |Keep(ms, IsActiveMember)|)
  }

  // ---------------------------------------------------------------- the page state

  class TeamPage {
    var members: seq<TeamMember>
    var form: TeamForm
    var editing: Option<TeamMember>
    var searchTerm: string
    var roleFilter: RoleFilter
    var dialogOpen: bool

    /** The state on mount: no members yet, the empty form, nothing being edited. */
    constructor ()
      ensures members == [] && form == EmptyForm() && editing == None
      ensures searchTerm == "" && roleFilter == AllRoles && !dialogOpen
    {
      members, form, editing := [], EmptyForm(), None;
      searchTerm, roleFilter, dialogOpen := "", AllRoles, false;
    }

    /** `setTeamMembers(list)` after the list is fetched. */
    method Load(list: seq<TeamMember>)
      modifies this`members
      ensures members == list
    {
      members := list;
    }

    method HandleInputChange(field: FormField)
      modifies this`form
      ensures form == WithField(old(form), field)
    {
      form := WithField(form, field);
    }

    method SetSearchTerm(term: string)
      modifies this`searchTerm
      ensures searchTerm == term
    {
      searchTerm := term;
    }

    method SetRoleFilter(f: RoleFilter)
      modifies this`roleFilter
      ensures roleFilter == f
    {
      roleFilter := f;
    }

    method ResetForm()
      modifies this`form, this`editing
      ensures form == EmptyForm() && editing == None
    {
      form := EmptyForm();
      editing := None;
    }

    /**
     * The "Add Team Member" button: the form is reset, then the dialog opens in add mode.
     */
    method OpenAddDialog()
      modifies this`form, this`editing, this`dialogOpen
      ensures form == EmptyForm() && editing == None && dialogOpen
    {
      ResetForm();
      dialogOpen := true;
    }

    /**
     * The "Add First Team Member" button: the dialog opens, and the form and the
     * member being edited are left as they were.
     */
    method OpenDialog()
      modifies this`dialogOpen
      ensures dialogOpen
    {
      dialogOpen := true;
    }

    /**
     * Cancel, or dismissing the dialog: it closes, and the form and the member being
     * edited are left as they were.
     */
    method CloseDialog()
      modifies this`dialogOpen
      ensures !dialogOpen
    {
      dialogOpen := false;
    }

    method HandleEdit(m: TeamMember)
      modifies this`form, this`editing, this`dialogOpen
      ensures editing == Some(m) && form == FormOf(m) && dialogOpen
    {
      editing := Some(m);
      form := FormOf(m);
      dialogOpen := true;
    }

    /**
     * Saves the form: updates the edited member, or puts a new one (id `newId`) in front;
     * then resets. A form the browser's `required` checks refuse is never submitted.
     */
    method HandleSubmit(newId: string) returns (submitted: bool)
      modifies this`members, this`form, this`editing, this`dialogOpen
      ensures submitted == Submittable(old(form), old(editing).Some?)
      ensures !submitted ==> members == old(members) && form == old(form) && editing == old(editing)
                             && dialogOpen == old(dialogOpen)
      ensures submitted && old(editing).Some? ==> members == UpdateMember(old(members), old(editing).value.id, old(form))
      ensures submitted && old(editing).None? ==> members == [NewMember(newId, old(form))] + old(members)
      ensures submitted ==> form == EmptyForm() && editing == None && !dialogOpen
    {
      submitted := Submittable(form, editing.Some?);
      if !submitted {
        return;
      }
      if editing.Some? {
        members := UpdateMember(members, editing.value.id, form);
      } else {
        members := [NewMember(newId, form)] + members;
      }
      ResetForm();
      dialogOpen := false;
    }

    /** `confirmed` is the answer to the confirmation prompt. */
    method HandleDelete(id: string, confirmed: bool)
      modifies this`members
      ensures members == if confirmed then RemoveMember(old(members), id) else old(members)
    {
      if confirmed {
        members := RemoveMember(members, id);
      }
    }

    method ToggleMemberStatus(id: string)
      modifies this`members
      ensures members == ToggleStatus(old(members), id)
    {
      members := ToggleStatus(members, id);
    }

    /** The members shown: those matching the search term and the role filter, in list order. */
    function FilteredMembers(): (r: seq<TeamMember>)
      reads this
      ensures forall m :: m in r <==> m in members && MatchesSearch(m, searchTerm) && MatchesRole(m, roleFilter)
      ensures IsSubsequence(r, members)
    {
      FilterMembers(members, searchTerm, roleFilter)
    }

    /** The stat cards over the whole member list, whatever the filter shows. */
    function Stats(): (r: TeamStats)
      reads this
      ensures r.total == |members|
      ensures r.admins == |set i | 0 <= i < |members| && members[i].role == Admin|
      ensures r.managers == |set i | 0 <= i < |members| && members[i].role == Manager|
      ensures r.active == |set i | 0 <= i < |members| && members[i].isActive|
    {
      StatsOf(members)
    }
  }
}
