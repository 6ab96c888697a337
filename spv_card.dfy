/**
 * components/ui/spv-card.tsx: a founder's view of one SPV, with its
 * commitment progress, member counts, average commitment, status colours
 * and the members panel that opens and closes.
 */
module SpvCard {
  import opened Common

  datatype Member = Member(id: string, amountCommitted: real, status: string, fullName: string, email: string)

  datatype Spv = Spv(
    id: string,
    name: string,
    status: string,
    targetRaise: real,
    committedAmount: real,
    minimumInvestment: real,
    createdAt: string,
    members: Option<seq<Member>>)

  /** `commitmentProgress`: committed as a percentage of the target, 0 when the target is 0 (falsy). */
  function CommitmentProgress(spv: Spv): (p: real)
    ensures spv.targetRaise == 0.0 ==> p == 0.0
    ensures spv.targetRaise != 0.0 ==> p * spv.targetRaise == spv.committedAmount * 100.0
  {
    if spv.targetRaise != 0.0 then spv.committedAmount / spv.targetRaise * 100.0 else 0.0
  }

  /** With a positive target, meeting it is exactly reaching 100%. */
  lemma ProgressReachesFull(spv: Spv)
    requires spv.targetRaise > 0.0
    ensures CommitmentProgress(spv) >= 100.0 <==> spv.committedAmount >= spv.targetRaise
  {
    var p := CommitmentProgress(spv);
    assert p * spv.targetRaise == spv.committedAmount * 100.0;
    if p >= 100.0 {
      assert p * spv.targetRaise >= 100.0 * spv.targetRaise;
    } else {
      assert p * spv.targetRaise < 100.0 * spv.targetRaise;
    }
  }

  /** `Math.min(commitmentProgress, 100)`: the bar never overflows, and is exact below 100%. */
  function BarWidth(spv: Spv): (w: real)
    ensures w <= 100.0
    ensures w <= CommitmentProgress(spv)
    ensures w == CommitmentProgress(spv) || w == 100.0
  {
    MinReal(CommitmentProgress(spv), 100.0)
  }

  /** `spv_members?.length || 0` */
  function TotalMembers(members: Option<seq<Member>>): (n: nat)
    ensures members.None? ==> n == 0
    ensures members.Some? ==> n == |members.value|
  {
    LengthOr0(members)
  }

  /** The members whose status is "committed", counted. */
  function CommittedCount(ms: seq<Member>): (n: nat)
    ensures n <= |ms|
    ensures n == 0 <==> forall i :: 0 <= i < |ms| ==> ms[i].status != "committed"
    ensures n == |ms| <==> forall i :: 0 <= i < |ms| ==> ms[i].status == "committed"
  {
    if ms == [] then 0
    else
      var init := ms[..|ms| - 1];
      assert forall i :: 0 <= i < |init| ==> init[i] == ms[i];
      CommittedCount(init) + (if ms[|ms| - 1].status == "committed" then 1 else 0)
  }

  /** The count adds up over the parts of a list: each committed member counts once, wherever it is. */
  lemma {:induction false} CommittedCountAppend(a: seq<Member>, b: seq<Member>)
    ensures CommittedCount(a + b) == CommittedCount(a) + CommittedCount(b)
    decreases |b|
  {
    if b == [] {
      assert a + b == a;
    } else {
      assert (a + b)[..|a + b| - 1] == a + b[..|b| - 1];
      CommittedCountAppend(a, b[..|b| - 1]);
    }
  }

  /** `spv_members?.filter(m => m.status === 'committed').length || 0` */
  function CommittedMembers(members: Option<seq<Member>>): (n: nat)
    ensures n <= TotalMembers(members)
    ensures members.Some? ==> n == CommittedCount(members.value)
  {
    match members
    case None => 0
    case Some(ms) => CommittedCount(ms)
  }

  /** The "Avg Commitment" figure: the text "0" without members. */
  datatype Average = NoMembers | Rounded(value: int)

  /**
   * `Math.round(committed_amount / totalMembers)`: the SPV's committed amount
   * spread over ALL members, including pending and withdrawn ones.
   */
  function AverageCommitment(spv: Spv): (a: Average)
    ensures a == NoMembers <==> TotalMembers(spv.members) == 0
    ensures a.Rounded? ==>
              var n := TotalMembers(spv.members) as real;
              a.value as real - 0.5 <= spv.committedAmount / n < a.value as real + 0.5
  {
    var n := TotalMembers(spv.members);
    if n > 0 then
      var x := spv.committedAmount / (n as real);
      Rounded(Round(x))
    else NoMembers
  }

  /** Even commitments average to the common amount. */
  lemma EvenSplitAverage(spv: Spv, each: int)
    requires TotalMembers(spv.members) > 0
    requires spv.committedAmount == each as real * TotalMembers(spv.members) as real
    ensures AverageCommitment(spv) == Rounded(each)
  {
    var n := TotalMembers(spv.members) as real;
    assert spv.committedAmount / n == each as real;
    RoundOfInt(each);
  }

  /** `getStatusColor`: "closed" and unknown statuses share the grey. */
  function StatusColor(status: string): (c: string)
    ensures c == "bg-green-100 text-green-800" <==> status == "active"
    ensures c == "bg-yellow-100 text-yellow-800" <==> status == "draft"
    ensures c == "bg-gray-100 text-gray-800" <==> status != "active" && status != "draft"
  {
    if status == "active" then "bg-green-100 text-green-800"
    else if status == "closed" then "bg-gray-100 text-gray-800"
    else if status == "draft" then "bg-yellow-100 text-yellow-800"
    else "bg-gray-100 text-gray-800"
  }

  /** `getMemberStatusColor` */
  function MemberStatusColor(status: string): (c: string)
    ensures c == "bg-green-100 text-green-800" <==> status == "committed"
    ensures c == "bg-yellow-100 text-yellow-800" <==> status == "pending"
    ensures c == "bg-red-100 text-red-800" <==> status == "withdrawn"
    ensures c == "bg-gray-100 text-gray-800" <==> status !in {"committed", "pending", "withdrawn"}
  {
    if status == "committed" then "bg-green-100 text-green-800"
    else if status == "pending" then "bg-yellow-100 text-yellow-800"
    else if status == "withdrawn" then "bg-red-100 text-red-800"
    else "bg-gray-100 text-gray-800"
  }

  /** What the members area shows. */
  datatype MembersView = Hidden | MemberList(members: seq<Member>) | NoMembersYet

  function MembersViewOf(show: bool, members: Option<seq<Member>>): (v: MembersView)
    ensures v == Hidden <==> !show
    ensures v.MemberList? <==> show && TotalMembers(members) > 0
    ensures v.MemberList? ==> members == Some(v.members)
    ensures v == NoMembersYet <==> show && TotalMembers(members) == 0
  {
    if !show then Hidden
    else if members.Some? && |members.value| > 0 then MemberList(members.value)
    else NoMembersYet
  }

  /** The card's one piece of state: whether the members panel is open. */
  class MembersPanel {
    const spv: Spv
    var showMembers: bool

    constructor (s: Spv)
      ensures spv == s && !showMembers
    {
      spv := s;
      showMembers := false;
    }

    /** The toggle button's text. */
    function ButtonLabel(): (text: string)
      reads this
      ensures showMembers ==> text == "Hide Members"
      ensures !showMembers ==> text == "View Members (" + NatToString(TotalMembers(spv.members)) + ")"
    {
      if showMembers then "Hide Members" else "View Members (" + NatToString(TotalMembers(spv.members)) + ")"
    }

    function View(): (v: MembersView)
      reads this
      ensures v == MembersViewOf(showMembers, spv.members)
    {
      MembersViewOf(showMembers, spv.members)
    }

    /** `setShowMembers(!showMembers)` */
    method Toggle()
      modifies this
      ensures showMembers == !old(showMembers)
      ensures (View() == Hidden) == !old(View() == Hidden)
    {
      showMembers := !showMembers;
    }
  }
}
