/** The team page (`src/pages/TeamManagement.tsx`): role and status labels,
    the members of the admin's team, the access gate, and the invite and
    edit dialogs. The invite and edit submissions are unfinished in the
    source: they only close their dialogs. */
module TeamManagement {
  import opened Base
  import opened Seqs
  import opened Types

  /** `getRoleDisplay`: the label of a known role, any other text as it is. */
  function RoleDisplay(role: string): (r: string)
    ensures role == "admin" ==> r == "Administrator"
    ensures role == "agent" ==> r == "Support Agent"
    ensures role == "customer" ==> r == "Customer"
    ensures role !in {"admin", "agent", "customer"} ==> r == role
  {
    if role == "admin" then "Administrator"
    else if role == "agent" then "Support Agent"
    else if role == "customer" then "Customer"
    else role
  }

  /** `getStatusDisplay`: the label of a known member status, any other text
      as it is. */
  function StatusDisplay(status: string): (r: string)
    ensures status == "active" ==> r == "Active"
    ensures status == "inactive" ==> r == "Inactive"
    ensures status == "pending" ==> r == "Pending"
    ensures status !in {"active", "inactive", "pending"} ==> r == status
  {
    if status == "active" then "Active"
    else if status == "inactive" then "Inactive"
    else if status == "pending" then "Pending"
    else status
  }

  /** The three roles get three different labels, none of them a role name,
      so a label never passes for a raw role. */
  lemma RoleLabelsDistinct(a: Role, b: Role)
    requires !a.Unrecognised? && !b.Unrecognised?
    ensures RoleDisplay(RoleName(a)) == RoleDisplay(RoleName(b)) <==> a == b
    ensures RoleDisplay(RoleName(a)) !in {"admin", "agent", "customer"}
  {
  }

  /** `member.teamId === user?.teamId`; without a user no member matches. */
  function InTeamOf(user: Option<User>): User -> bool {
    (m: User) => user.Some? && m.teamId == user.value.teamId
  }

  /** `teamMembers`, in stored order. */
  function TeamMembers(all: seq<User>, user: Option<User>): (r: seq<User>)
    ensures forall m :: m in r <==> m in all && user.Some? && m.teamId == user.value.teamId
    ensures user.None? ==> r == []
  {
    FilterNoneEmpty(all, InTeamOf(user));
    Filter(all, InTeamOf(user))
  }

  /** What the page shows: a refusal for anyone but an admin, else the team. */
  datatype TeamView = AccessDenied | MemberList(members: seq<User>)

  function View(user: Option<User>, all: seq<User>): (r: TeamView)
    ensures r == AccessDenied <==> !(user.Some? && user.value.role == Admin)
    ensures r.MemberList? ==> r.members == TeamMembers(all, user)
  {
    if user.Some? && user.value.role == Admin then MemberList(TeamMembers(all, user)) else AccessDenied
  }

  /** An admin sees every stored member of their own team and no one else. */
  lemma AdminSeesOwnTeam(admin: User, all: seq<User>, m: User)
    requires admin.role == Admin
    ensures View(Some(admin), all).MemberList?
    ensures m in View(Some(admin), all).members <==> m in all && m.teamId == admin.teamId
  {
  }

  /** The page's state; `allTeamMembers` is the stored member list. */
  class TeamPage {
    const user: Option<User>
    var allTeamMembers: seq<User>
    var showInviteForm: bool
    var email: string
    var role: string
    var editingMember: Option<User>

    constructor(user: Option<User>, stored: seq<User>)
      ensures this.user == user && allTeamMembers == stored
      ensures !showInviteForm && email == "" && role == "agent" && editingMember == None
    {
      this.user := user;
      allTeamMembers := stored;
      showInviteForm := false;
      email := "";
      role := "agent";
      editingMember := None;
    }

    /** The page for the signed-in user and the stored members. */
    function CurrentView(): (v: TeamView)
      reads this
      ensures v.MemberList? <==> user.Some? && user.value.role == Admin
      ensures v.MemberList? ==> forall m :: m in v.members <==> m in allTeamMembers && m.teamId == user.value.teamId
    {
      View(user, allTeamMembers)
    }

    method OpenInviteForm()
      modifies this
      ensures showInviteForm
      ensures allTeamMembers == old(allTeamMembers) && email == old(email) && role == old(role)
      ensures editingMember == old(editingMember)
    {
      showInviteForm := true;
    }

    method CancelInvite()
      modifies this
      ensures !showInviteForm
      ensures allTeamMembers == old(allTeamMembers) && email == old(email) && role == old(role)
      ensures editingMember == old(editingMember)
    {
      showInviteForm := false;
    }

    method SetEmail(text: string)
      modifies this
      ensures email == text
      ensures allTeamMembers == old(allTeamMembers) && showInviteForm == old(showInviteForm)
      ensures role == old(role) && editingMember == old(editingMember)
    {
      email := text;
    }

    method SetRole(text: string)
      modifies this
      ensures role == text
      ensures allTeamMembers == old(allTeamMembers) && showInviteForm == old(showInviteForm)
      ensures email == old(email) && editingMember == old(editingMember)
    {
      role := text;
    }

    /** `handleInvite`: closes the form and resets it; no member is added. */
    method HandleInvite()
      modifies this
      ensures !showInviteForm && email == "" && role == "agent"
      ensures allTeamMembers == old(allTeamMembers) && editingMember == old(editingMember)
      ensures CurrentView() == old(CurrentView())
    {
      showInviteForm := false;
      email := "";
      role := "agent";
    }

    /** `handleEdit`: the member is opened in the edit dialog. */
    method HandleEdit(member: User)
      modifies this
      ensures editingMember == Some(member)
      ensures allTeamMembers == old(allTeamMembers) && showInviteForm == old(showInviteForm)
      ensures email == old(email) && role == old(role)
    {
      editingMember := Some(member);
    }

    /** The name input of the edit dialog, shown only while a member is open. */
    method EditName(name: string)
      requires editingMember.Some?
      modifies this
      ensures editingMember == Some(old(editingMember).value.(name := name))
      ensures allTeamMembers == old(allTeamMembers) && showInviteForm == old(showInviteForm)
      ensures email == old(email) && role == old(role)
    {
      editingMember := Some(editingMember.value.(name := name));
    }

    /** The role select of the edit dialog. */
    method EditRole(text: string)
      requires editingMember.Some?
      modifies this
      ensures editingMember == Some(old(editingMember).value.(role := ParseRole(text)))
      ensures allTeamMembers == old(allTeamMembers) && showInviteForm == old(showInviteForm)
      ensures email == old(email) && role == old(role)
    {
      editingMember := Some(editingMember.value.(role := ParseRole(text)));
    }

    /** `handleEditSubmit` and the dialog's cancel button: the dialog closes
        and the stored members stay as they were. */
    method HandleEditSubmit()
      modifies this
      ensures editingMember == None
      ensures allTeamMembers == old(allTeamMembers) && showInviteForm == old(showInviteForm)
      ensures email == old(email) && role == old(role)
    {
      editingMember := None;
    }
  }
}
