/**
 * The project page: the owner test, the member list with the owner first, and the
 * member panel that invites by e-mail (after an ordered chain of guards) and removes
 * members, each time sending the whole new member e-mail list.
 */
module ProjectPage {
  import opened Wrappers
  import opened Strings
  import opened Seqs
  import opened EmailFormat
  import opened Projects
  import DashboardPage
  import ProjectCardView
  import TaskModalForm
  import KanbanBoard

  /** The outcome of the guards of `handleAddMember`, the first failing guard winning. */
  datatype AddCheck =
    | BlankEmail
    | InvalidEmail
    | AlreadyMember
    | OwnerEmail
    | Accepted(emails: seq<string>)

  /** `members.map(m => m.email)`. */
  function MemberEmails(members: seq<Member>): (r: seq<string>)
    ensures |r| == |members|
    ensures forall i :: 0 <= i < |members| ==> r[i] == members[i].email
  {
    Map((m: Member) => m.email, members)
  }

  /** Some member's e-mail is exactly `email` (no trimming, no case folding). */
  predicate IsMemberEmail(members: seq<Member>, email: string) {
    exists m :: m in members && m.email == email
  }

  /**
   * The guard chain of `handleAddMember`: blank after trimming, then the e-mail format,
   * then an exact match with a member, then with the owner; otherwise the list to send is
   * the current member e-mails followed by the new one.
   */
  function CheckNewMember(project: Project, email: string): (r: AddCheck)
    ensures r == BlankEmail <==> IsBlank(email)
    ensures r == InvalidEmail <==> !IsBlank(email) && !IsEmail(email)
    ensures r == AlreadyMember <==> IsEmail(email) && IsMemberEmail(project.members, email)
    ensures r == OwnerEmail <==>
      IsEmail(email) && !IsMemberEmail(project.members, email) && project.owner.email == email
    ensures r.Accepted? <==>
      IsEmail(email) && !IsMemberEmail(project.members, email) && project.owner.email != email
    ensures r.Accepted? ==> r.emails == MemberEmails(project.members) + [email]
  {
    if IsBlank(email) then assert !IsEmail(email) by { BlankIsNotEmail(email); } BlankEmail
    else if !IsEmail(email) then InvalidEmail
    else if exists m :: m in project.members && m.email == email then AlreadyMember
    else if project.owner.email == email then OwnerEmail
    else Accepted(MemberEmails(project.members) + [email])
  }

  /**
   * An accepted invitation sends every current member's e-mail once more, in order, and
   * adds an e-mail that matches the format and belongs to nobody on the project yet.
   */
  lemma AcceptedEmailIsNew(project: Project, email: string)
    requires CheckNewMember(project, email).Accepted?
    ensures var emails := CheckNewMember(project, email).emails;
      |emails| == |project.members| + 1 && emails[|project.members|] == email
    ensures IsEmail(email) && email != project.owner.email
    ensures email !in MemberEmails(project.members)
  {
    var sent := MemberEmails(project.members);
    forall i | 0 <= i < |sent| ensures sent[i] != email {
      assert project.members[i] in project.members;
    }
  }

  /**
   * The duplicate check compares the raw value, while the blank check trims it: a member's
   * e-mail behind a leading space passes every guard of the handler although the member is
   * already there. (The page's e-mail input strips such spaces from typed text.)
   */
  lemma UntrimmedDuplicateSlipsThrough()
    ensures var owner := Member("o", "Owner", "owner@x.io");
      var member := Member("m", "Mia", "mia@x.io");
      var project := Project("p", "P", "", owner, [member], None, None, None, true);
      CheckNewMember(project, " mia@x.io") == Accepted(["mia@x.io", " mia@x.io"])
  {
    var member := Member("m", "Mia", "mia@x.io");
    assert MatchAt(" mia@x.io", 4, 6);
    assert !IsBlank(" mia@x.io") by { assert !IsSpace(" mia@x.io"[1]); }
    assert MemberEmails([member]) == ["mia@x.io"];
  }

  /** `handleRemoveMember`'s list: the e-mails of the members with another `_id`, in order. */
  function RemainingEmails(members: seq<Member>, removed: Member): (r: seq<string>)
    ensures |r| <= |members|
    ensures forall e :: e in r <==> exists m :: m in members && m.id != removed.id && m.email == e
  {
    var kept := Filter((m: Member) => m.id != removed.id, members);
    var r := MemberEmails(kept);
    assert forall e :: e in r ==> exists m :: m in members && m.id != removed.id && m.email == e by {
      forall e | e in r ensures exists m :: m in members && m.id != removed.id && m.email == e {
        var i :| 0 <= i < |r| && r[i] == e;
        assert kept[i] in kept;
      }
    }
    assert forall m :: m in members && m.id != removed.id ==> m.email in r by {
      forall m | m in members && m.id != removed.id ensures m.email in r {
        assert m in kept;
        var i :| 0 <= i < |kept| && kept[i] == m;
        assert r[i] == m.email;
      }
    }
    r
  }

  /** Removing a member nobody else shares an id with drops exactly that member's entry. */
  lemma {:induction false} RemainingEmailsDropsOne(members: seq<Member>, k: nat)
    requires k < |members|
    requires forall i :: 0 <= i < |members| && i != k ==> members[i].id != members[k].id
    ensures RemainingEmails(members, members[k]) == MemberEmails(members[..k] + members[k + 1..])
  {
    FilterSkipsOne((m: Member) => m.id != members[k].id, members, k);
  }

  /** `isOwner`: the owner's `_id` equals the user's `_id` or the user's `id`. */
  predicate IsOwner(owner: Member, user: Option<User>) {
    user.Some? && (user.value.mongoId == Some(owner.id) || user.value.id == Some(owner.id))
  }

  /** `allMembers`: the owner first, then the members; `totalMemberCount` is its length. */
  function AllMembers(project: Project): (r: seq<Member>)
    ensures |r| == 1 + |project.members|
    ensures r[0] == project.owner && r[1..] == project.members
  {
    [project.owner] + project.members
  }

  /**
   * The dashboard's people count and the page's member total both count the owner; the
   * project card shows one fewer, the members alone.
   */
  lemma DashboardCountsOwner(p: Project)
    ensures DashboardPage.PeopleCount(p) == |AllMembers(p)| == ProjectCardView.CardOf(p).memberCount + 1
  {
  }

  /**
   * The page hands `isOwner` to the board, but the board's task modal never receives it:
   * whoever creates a task there sends the owner's payload (the chosen assignee, or none).
   * For the owner this is what the page's test would give; a member who is not the owner
   * sends it instead of the self-assignment a member's modal would send.
   */
  lemma MemberCreatesOnBoardAsOwner(project: Project, user: User, form: TaskModalForm.TaskForm)
    ensures TaskModalForm.SubmitData(form, KanbanBoard.BOARD_MODAL_IS_OWNER, false, user).assignedTo
            == TaskModalForm.SetTo(if form.assignedTo == "" then None else Some(form.assignedTo))
    ensures IsOwner(project.owner, Some(user)) ==>
      TaskModalForm.SubmitData(form, KanbanBoard.BOARD_MODAL_IS_OWNER, false, user)
      == TaskModalForm.SubmitData(form, IsOwner(project.owner, Some(user)), false, user)
    ensures !IsOwner(project.owner, Some(user)) && form.assignedTo == ""
            && ((user.mongoId.Some? && user.mongoId.value != "") || user.id.Some?) ==>
      TaskModalForm.SubmitData(form, KanbanBoard.BOARD_MODAL_IS_OWNER, false, user)
      != TaskModalForm.SubmitData(form, IsOwner(project.owner, Some(user)), false, user)
  {
    KanbanBoard.BoardModalSendsAssignment(form, false, user);
  }

  /** The member panel of the project page. */
  class MemberPanel {
    const project: Project
    var memberEmail: string
    var showAddMember: bool
    var addingMember: bool
    /** The project-service calls made so far. */
    var calls: seq<ProjectCall>

    constructor(project: Project)
      ensures this.project == project
      ensures memberEmail == "" && !showAddMember && !addingMember && calls == []
    {
      this.project := project;
      memberEmail := "";
      showAddMember := false;
      addingMember := false;
      calls := [];
    }

    /**
     * `handleAddMember`: a failing guard changes nothing and calls nothing; otherwise one
     * update with the new e-mail list, and on success (`ok`) the field is cleared, the
     * form hidden and the project fetched again.
     */
    method HandleAddMember(ok: bool)
      modifies this
      ensures var check := CheckNewMember(project, old(memberEmail));
        !check.Accepted? ==>
          calls == old(calls) && memberEmail == old(memberEmail)
          && showAddMember == old(showAddMember) && addingMember == old(addingMember)
      ensures var check := CheckNewMember(project, old(memberEmail));
        check.Accepted? && ok ==>
          calls == old(calls) + [UpdateMembers(project.id, check.emails), GetProjectById(project.id)]
          && memberEmail == "" && !showAddMember && !addingMember
      ensures var check := CheckNewMember(project, old(memberEmail));
        check.Accepted? && !ok ==>
          calls == old(calls) + [UpdateMembers(project.id, check.emails)]
          && memberEmail == old(memberEmail) && showAddMember == old(showAddMember) && !addingMember
    {
      var check := CheckNewMember(project, memberEmail);
      if !check.Accepted? {
        return;
      }
      addingMember := true;
      calls := calls + [UpdateMembers(project.id, check.emails)];
      if ok {
        memberEmail := "";
        showAddMember := false;
        calls := calls + [GetProjectById(project.id)];
      }
      addingMember := false;
    }

    /**
     * `handleRemoveMember`: only after confirmation, one update with the remaining e-mails,
     * and on success (`ok`) the project is fetched again.
     */
    method HandleRemoveMember(member: Member, confirmed: bool, ok: bool)
      modifies this
      ensures !confirmed ==> calls == old(calls)
      ensures confirmed && ok ==>
        calls == old(calls) + [UpdateMembers(project.id, RemainingEmails(project.members, member)),
                               GetProjectById(project.id)]
      ensures confirmed && !ok ==>
        calls == old(calls) + [UpdateMembers(project.id, RemainingEmails(project.members, member))]
      ensures memberEmail == old(memberEmail) && showAddMember == old(showAddMember)
      ensures addingMember == old(addingMember)
    {
      if confirmed {
        calls := calls + [UpdateMembers(project.id, RemainingEmails(project.members, member))];
        if ok {
          calls := calls + [GetProjectById(project.id)];
        }
      }
    }
  }
}
