/**
 * The own-trees page of the map app (frontend/src/pages/MyTreesPage.jsx):
 * the member sheet of a private tree, with its remove, accept, decline and
 * invite actions, and when a tree card offers member management.
 */
module MyTreesFrontend {
  import opened Wrappers
  import opened Text
  import opened Seqs

  datatype Member = Member(id: int, status: string, role: string)

  /** The tree the sheet is opened for. */
  datatype Tree = Tree(id: int, privacy: string, members: Option<seq<Member>>)

  /** `members.filter((m) => m.id !== memberId)`. */
  function Remove(members: seq<Member>, memberId: int): (r: seq<Member>)
    ensures forall i :: 0 <= i < |r| ==> r[i].id != memberId
  {
    Filter(members, (m: Member) => m.id != memberId)
  }

  /** The member with that id marked accepted; `{ ...m, status: 'accepted' }`. */
  function AcceptIn(members: seq<Member>, memberId: int): (r: seq<Member>)
    ensures |r| == |members|
    ensures forall i :: 0 <= i < |r| ==> r[i] == if members[i].id == memberId then members[i].(status := "accepted") else members[i]
  {
    Map(members, (m: Member) => if m.id == memberId then m.(status := "accepted") else m)
  }

  /** The accepted tab's list. */
  function Accepted(members: seq<Member>): (r: seq<Member>)
    ensures forall i :: 0 <= i < |r| ==> r[i].status == "accepted"
  {
    Filter(members, (m: Member) => m.status == "accepted")
  }

  /** The pending tab's list. */
  function Pending(members: seq<Member>): (r: seq<Member>)
    ensures forall i :: 0 <= i < |r| ==> r[i].status == "pending"
  {
    Filter(members, (m: Member) => m.status == "pending")
  }

  /**
   * Removing (or declining) drops exactly the members with that id and keeps
   * the others in their order.
   */
  lemma RemoveKeepsOthers(members: seq<Member>, memberId: int)
    ensures forall m :: m in Remove(members, memberId) <==> m in members && m.id != memberId
    ensures Subseq(Remove(members, memberId), members)
  {
    FilterMembers(members, (m: Member) => m.id != memberId);
    FilterSubseq(members, (m: Member) => m.id != memberId);
  }

  /**
   * The two tabs partition the members by status: a member is on a tab
   * exactly when it has that tab's status, no one is on both, and together
   * they hold every member when every status is one of the two.
   */
  lemma Partition(members: seq<Member>)
    ensures forall m :: m in Accepted(members) <==> m in members && m.status == "accepted"
    ensures forall m :: m in Pending(members) <==> m in members && m.status == "pending"
    ensures |Accepted(members)| + |Pending(members)| <= |members|
    ensures (forall i :: 0 <= i < |members| ==> members[i].status in {"accepted", "pending"}) ==>
              |Accepted(members)| + |Pending(members)| == |members|
  {
    var acc: Member -> bool := (m: Member) => m.status == "accepted";
    var pen: Member -> bool := (m: Member) => m.status == "pending";
    FilterMembers(members, acc);
    FilterMembers(members, pen);
    FilterSplit(members, acc, pen);
  }

  /** After accepting, the accepted member is on the accepted tab and off the pending one. */
  lemma AcceptMovesToAccepted(members: seq<Member>, memberId: int, i: nat)
    requires i < |members| && members[i].id == memberId
    ensures members[i].(status := "accepted") in Accepted(AcceptIn(members, memberId))
    ensures forall m :: m in Pending(AcceptIn(members, memberId)) ==> m.id != memberId
  {
    var after := AcceptIn(members, memberId);
    FilterMembers(after, (m: Member) => m.status == "accepted");
    FilterMembers(after, (m: Member) => m.status == "pending");
    assert after[i] == members[i].(status := "accepted");
    forall m | m in Pending(after)
      ensures m.id != memberId
    {
      var j :| 0 <= j < |after| && after[j] == m;
    }
  }

  /** The creator row has no remove action; every other row has one. */
  predicate ShowsRemove(m: Member) {
    m.role != "creator"
  }

  /** Manage Members appears on the planted tab for private-group and invite-only trees. */
  predicate ShowManage(tab: string, privacy: string) {
    tab == "planted" && (privacy == "private_group" || privacy == "invite_only")
  }

  /** The invite button inside the sheet appears only for invite-only trees. */
  predicate ShowsInvite(privacy: string) {
    privacy == "invite_only"
  }

  /** A tree whose sheet has the invite button is one whose card offers the sheet on the planted tab. */
  lemma InviteOnlyIsManaged(privacy: string)
    ensures ShowsInvite(privacy) ==> ShowManage("planted", privacy)
    ensures !ShowManage("planted", privacy) ==> !ShowsInvite(privacy)
  {
  }

  class MemberSheet {
    var memberTab: string
    var members: seq<Member>
    var showInviteInput: bool
    var inviteInput: string
    var toast: Option<string>

    constructor (tree: Option<Tree>)
      ensures memberTab == "accepted" && !showInviteInput && inviteInput == "" && toast.None?
      ensures members == if tree.Some? then OrElse(tree.value.members, []) else []
    {
      memberTab, showInviteInput, inviteInput, toast := "accepted", false, "", None;
      members := if tree.Some? then OrElse(tree.value.members, []) else [];
    }

    /** The reset effect when another tree is opened; with no tree nothing changes. */
    method Reset(tree: Option<Tree>)
      modifies this
      ensures tree.None? ==> memberTab == old(memberTab) && members == old(members) && showInviteInput == old(showInviteInput)
                             && inviteInput == old(inviteInput) && toast == old(toast)
      ensures tree.Some? ==> memberTab == "accepted" && members == OrElse(tree.value.members, [])
                             && !showInviteInput && inviteInput == "" && toast.None?
    {
      if tree.None? {
        return;
      }
      memberTab := "accepted";
      members := OrElse(tree.value.members, []);
      showInviteInput := false;
      inviteInput := "";
      toast := None;
    }

    /** `handleRemove(id)`. */
    method HandleRemove(memberId: int)
      modifies this`members, this`toast
      ensures members == Remove(old(members), memberId) && toast == Some("Member removed")
    {
      members := Remove(members, memberId);
      toast := Some("Member removed");
    }

    /** `handleAccept(id)`. */
    method HandleAccept(memberId: int)
      modifies this`members, this`toast
      ensures members == AcceptIn(old(members), memberId) && toast == Some("\U{2705} Request accepted!")
    {
      members := AcceptIn(members, memberId);
      toast := Some("\U{2705} Request accepted!");
    }

    /** `handleDecline(id)`: the same removal as `handleRemove`, with its own toast. */
    method HandleDecline(memberId: int)
      modifies this`members, this`toast
      ensures members == Remove(old(members), memberId) && toast == Some("Request declined")
    {
      members := Remove(members, memberId);
      toast := Some("Request declined");
    }

    /** `handleSendInvite()`: blank input does nothing; otherwise a toast, the input cleared and hidden. */
    method HandleSendInvite()
      modifies this`inviteInput, this`showInviteInput, this`toast
      ensures IsBlank(old(inviteInput)) ==>
                inviteInput == old(inviteInput) && showInviteInput == old(showInviteInput) && toast == old(toast)
      ensures !IsBlank(old(inviteInput)) ==>
                inviteInput == "" && !showInviteInput && toast == Some("\U{1FAC2} Invite sent!")
    {
      if IsBlank(inviteInput) {
        return;
      }
      toast := Some("\U{1FAC2} Invite sent!");
      inviteInput := "";
      showInviteInput := false;
    }
  }
}
