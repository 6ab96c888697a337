/**
 * app/dashboard/founder/spvs/page.tsx: the four overview figures above a
 * founder's list of SPVs, and the list or its empty state.
 *
 * The SPV rows are those of the SPV card (`SpvCard.Spv`), already fetched.
 */
module FounderSpvs {
  import opened Common
  import SpvCard

  type Spv = SpvCard.Spv

  /** `spvs?.length || 0` */
  function TotalSpvs(spvs: Option<seq<Spv>>): (n: nat)
    ensures spvs.None? ==> n == 0
    ensures spvs.Some? ==> n == |spvs.value|
  {
    LengthOr0(spvs)
  }

  /** The SPVs whose status is "active", counted. */
  function ActiveCount(ss: seq<Spv>): (n: nat)
    ensures n <= |ss|
    ensures n == 0 <==> forall i :: 0 <= i < |ss| ==> ss[i].status != "active"
    ensures n == |ss| <==> forall i :: 0 <= i < |ss| ==> ss[i].status == "active"
  {
    if ss == [] then 0
    else
      var init := ss[..|ss| - 1];
      assert forall i :: 0 <= i < |init| ==> init[i] == ss[i];
      ActiveCount(init) + (if ss[|ss| - 1].status == "active" then 1 else 0)
  }

  /** The count adds up over the parts of a list: each active SPV counts once, wherever it is. */
  lemma {:induction false} ActiveCountAppend(a: seq<Spv>, b: seq<Spv>)
    ensures ActiveCount(a + b) == ActiveCount(a) + ActiveCount(b)
    decreases |b|
  {
    if b == [] {
      assert a + b == a;
    } else {
      assert (a + b)[..|a + b| - 1] == a + b[..|b| - 1];
      ActiveCountAppend(a, b[..|b| - 1]);
    }
  }

  /** `spvs?.filter(spv => spv.status === 'active').length || 0` */
  function ActiveSpvs(spvs: Option<seq<Spv>>): (n: nat)
    ensures n <= TotalSpvs(spvs)
    ensures spvs.Some? ==> n == ActiveCount(spvs.value)
  {
    match spvs
    case None => 0
    case Some(ss) => ActiveCount(ss)
  }

  /** The committed amounts of the SPVs, added up. */
  function CommittedSum(ss: seq<Spv>): real
  {
    if ss == [] then 0.0 else CommittedSum(ss[..|ss| - 1]) + ss[|ss| - 1].committedAmount
  }

  /** `spvs?.reduce((sum, spv) => sum + (Number(spv.committed_amount) || 0), 0) || 0` */
  function TotalCommitted(spvs: Option<seq<Spv>>): (total: real)
    ensures spvs.None? ==> total == 0.0
    ensures spvs.Some? ==> total == CommittedSum(spvs.value)
  {
    match spvs
    case None => 0.0
    case Some(ss) => CommittedSum(ss)
  }

  /** The member-list lengths of the SPVs, added up (a missing list adds 0). */
  function MembersSum(ss: seq<Spv>): nat
  {
    if ss == [] then 0 else MembersSum(ss[..|ss| - 1]) + SpvCard.TotalMembers(ss[|ss| - 1].members)
  }

  /** `spvs?.reduce((sum, spv) => sum + (spv.spv_members?.length || 0), 0) || 0` */
  function TotalMembers(spvs: Option<seq<Spv>>): (n: nat)
    ensures spvs.None? ==> n == 0
    ensures spvs.Some? ==> n == MembersSum(spvs.value)
  {
    match spvs
    case None => 0
    case Some(ss) => MembersSum(ss)
  }

  /** Both sums distribute over concatenation: the order of the reduce does not matter to the totals. */
  lemma {:induction false} SumsAppend(a: seq<Spv>, b: seq<Spv>)
    ensures CommittedSum(a + b) == CommittedSum(a) + CommittedSum(b)
    ensures MembersSum(a + b) == MembersSum(a) + MembersSum(b)
    decreases |b|
  {
    if b == [] {
      assert a + b == a;
    } else {
      assert (a + b)[..|a + b| - 1] == a + b[..|b| - 1];
      SumsAppend(a, b[..|b| - 1]);
    }
  }

  /** Every SPV card's "Total Members" is at most the page's, and so is its committed count. */
  lemma {:induction false} CardMembersBounded(ss: seq<Spv>, i: nat)
    requires i < |ss|
    ensures SpvCard.CommittedMembers(ss[i].members) <= SpvCard.TotalMembers(ss[i].members) <= MembersSum(ss)
  {
    if i < |ss| - 1 {
      CardMembersBounded(ss[..|ss| - 1], i);
    }
  }

  /** With no negative amounts, the page's total is at least any one SPV's committed amount. */
  lemma {:induction false} CommittedBounded(ss: seq<Spv>, i: nat)
    requires i < |ss|
    requires forall j :: 0 <= j < |ss| ==> ss[j].committedAmount >= 0.0
    ensures 0.0 <= ss[i].committedAmount <= CommittedSum(ss)
  {
    var init := ss[..|ss| - 1];
    assert forall j :: 0 <= j < |init| ==> init[j] == ss[j];
    CommittedNonNegative(init);
    if i < |ss| - 1 {
      CommittedBounded(init, i);
    }
  }

  lemma {:induction false} CommittedNonNegative(ss: seq<Spv>)
    requires forall j :: 0 <= j < |ss| ==> ss[j].committedAmount >= 0.0
    ensures CommittedSum(ss) >= 0.0
  {
    if ss != [] {
      var init := ss[..|ss| - 1];
      assert forall j :: 0 <= j < |init| ==> init[j] == ss[j];
      CommittedNonNegative(init);
    }
  }

  /** The four overview cards. */
  datatype Overview = Overview(totalSpvs: nat, activeSpvs: nat, totalCommitted: real, totalMembers: nat)

  /**
   * The page's figures: "Company not found" (None) when the founder has no
   * company, otherwise the four overview figures.
   */
  function PageOverview(hasCompany: bool, spvs: Option<seq<Spv>>): (r: Option<Overview>)
    ensures r.None? <==> !hasCompany
    ensures r.Some? ==> r.value.activeSpvs <= r.value.totalSpvs
    ensures r.Some? ==> r.value == Overview(TotalSpvs(spvs), ActiveSpvs(spvs), TotalCommitted(spvs), TotalMembers(spvs))
    ensures r.Some? && TotalSpvs(spvs) == 0 ==> r.value == Overview(0, 0, 0.0, 0)
  {
    if !hasCompany then None
    else Some(Overview(TotalSpvs(spvs), ActiveSpvs(spvs), TotalCommitted(spvs), TotalMembers(spvs)))
  }

  /** "No SPVs created yet" appears exactly when there is no SPV card to show. */
  predicate ShowsEmptyState(spvs: Option<seq<Spv>>): (empty: bool)
    ensures empty <==> TotalSpvs(spvs) == 0
  {
    !(spvs.Some? && |spvs.value| > 0)
  }
}
