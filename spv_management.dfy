/**
 * components/ui/spv-management.tsx: the list of SPVs an investor can join,
 * at most one of them expanded at a time, with its funding progress, days
 * to expiry, status badge and the actions it offers.
 *
 * The clock is the parameter `nowMs`; expiry dates are already epoch
 * milliseconds.
 */
module SpvManagement {
  import opened Common

  datatype SpvItem = SpvItem(
    id: string,
    name: string,
    targetAmount: real,
    raisedAmount: real,
    status: string,
    companyName: string,
    expiryMs: int,
    minInvestment: real,
    participants: int,
    description: string)

  /** `1000 * 60 * 60 * 24` */
  const DayMs: int := 86400000

  /** `Math.ceil(a / d)` for a positive divisor. */
  function CeilDiv(a: int, d: int): (q: int)
    requires d > 0
    ensures (q - 1) * d < a <= q * d
  {
    var f := (-a) / d;
    assert f * d <= -a < f * d + d;
    -f
  }

  /** `calculateDaysLeft`: whole days until the expiry, rounded up; 0 or less once it has passed. */
  function DaysLeft(expiryMs: int, nowMs: int): (days: int)
    ensures (days - 1) * DayMs < expiryMs - nowMs <= days * DayMs
    ensures days <= 0 <==> expiryMs <= nowMs
  {
    CeilDiv(expiryMs - nowMs, DayMs)
  }

  /** Any expiry later today or within the next 24 hours counts as one day left. */
  lemma LastDayIsOne(expiryMs: int, nowMs: int)
    requires nowMs < expiryMs <= nowMs + DayMs
    ensures DaysLeft(expiryMs, nowMs) == 1
  {
  }

  /** The bar's width: a whole percentage, or what IEEE division by a zero target gives. */
  datatype Width = Percent(p: int) | NotANumber | MinusInfinity

  /**
   * `calculateProgress(raised, target)`: `Math.min(100, Math.round(raised / target * 100))`.
   * With a zero target the division gives Infinity (capped to 100), NaN
   * (nothing raised) or -Infinity (a negative amount raised).
   */
  function CalculateProgress(raised: real, target: real): (w: Width)
    ensures w.Percent? ==> w.p <= 100
    ensures target != 0.0 ==> w.Percent?
    ensures target == 0.0 ==> (w == Percent(100) <==> raised > 0.0)
    ensures target == 0.0 && raised == 0.0 ==> w == NotANumber
    ensures target == 0.0 && raised < 0.0 ==> w == MinusInfinity
    ensures target > 0.0 && raised >= target ==> w == Percent(100)
    ensures target > 0.0 && 0.0 <= raised ==> w.p >= 0
    ensures target != 0.0 ==>
              var x := raised / target * 100.0;
              (w.p == 100 && x >= 99.5) || (w.p < 100 && w.p as real - 0.5 <= x < w.p as real + 0.5)
  {
    if target == 0.0 then
      if raised > 0.0 then Percent(100) else if raised == 0.0 then NotANumber else MinusInfinity
    else
      var x := raised / target * 100.0;
      assert target > 0.0 && raised >= target ==> raised / target >= 1.0;
      Percent(MinInt(100, Round(x)))
  }

  /** Raising more never shrinks the bar. */
  lemma ProgressMonotone(r1: real, r2: real, target: real)
    requires target > 0.0 && r1 <= r2
    ensures CalculateProgress(r1, target).p <= CalculateProgress(r2, target).p
  {
    assert r1 / target <= r2 / target;
    RoundMonotone(r1 / target * 100.0, r2 / target * 100.0);
  }

  /** The test fixture: 350,000 raised of a 500,000 target fills 70%. */
  lemma ProgressExample()
    ensures CalculateProgress(350000.0, 500000.0) == Percent(70)
  {
    RoundOfInt(70);
  }

  /** The status badge: colour classes and text. */
  datatype Badge = Badge(color: string, text: string)

  function StatusBadge(status: string): (b: Badge)
    ensures b == Badge("bg-green-100 text-green-800", "Open for Investment") <==> status == "open"
    ensures b == Badge("bg-blue-100 text-blue-800", "Fully Funded") <==> status == "filled"
    ensures b == Badge("bg-gray-100 text-gray-800", "Closed") <==> status == "closed"
    ensures b == Badge("bg-yellow-100 text-yellow-800", "Pending") <==> status !in {"open", "filled", "closed"}
  {
    if status == "open" then Badge("bg-green-100 text-green-800", "Open for Investment")
    else if status == "filled" then Badge("bg-blue-100 text-blue-800", "Fully Funded")
    else if status == "closed" then Badge("bg-gray-100 text-gray-800", "Closed")
    else Badge("bg-yellow-100 text-yellow-800", "Pending")
  }

  /** `expandedSpvId === id ? null : id` */
  function Toggled(expanded: Option<string>, id: string): (r: Option<string>)
    ensures r == Some(id) <==> expanded != Some(id)
    ensures r.Some? ==> r.value == id
  {
    if expanded == Some(id) then None else Some(id)
  }

  /** Clicking the same row twice restores the row's state; clicking another row in between collapses all. */
  lemma ToggleTwice(expanded: Option<string>, id: string)
    ensures Toggled(Toggled(expanded, id), id) == (if expanded == Some(id) then Some(id) else None)
  {
  }

  /** The buttons an expanded row offers. */
  datatype Action = JoinSpv(spvId: string) | ViewDetails(spvId: string)

  function Actions(spv: SpvItem, expanded: Option<string>): (acts: seq<Action>)
    ensures JoinSpv(spv.id) in acts <==> expanded == Some(spv.id) && spv.status == "open"
    ensures ViewDetails(spv.id) in acts <==> expanded == Some(spv.id)
    ensures forall a :: a in acts ==> a.spvId == spv.id
  {
    if expanded != Some(spv.id) then []
    else if spv.status == "open" then [JoinSpv(spv.id), ViewDetails(spv.id)]
    else [ViewDetails(spv.id)]
  }

  class SpvList {
    var spvs: seq<SpvItem>
    var expandedId: Option<string>

    constructor (items: seq<SpvItem>)
      ensures spvs == items && expandedId.None?
    {
      spvs := items;
      expandedId := None;
    }

    /** With no SPVs the list is replaced by "No SPVs available at the moment". */
    predicate ShowsEmptyState()
      reads this
    {
      |spvs| == 0
    }

    /** The rows whose details are open: never more than one. */
    function ExpandedRows(): (rows: set<nat>)
      reads this
      ensures forall i :: i in rows ==> i < |spvs|
      ensures forall i: nat :: i in rows <==> i < |spvs| && expandedId == Some(spvs[i].id)
      ensures forall i, j :: i in rows && j in rows ==> spvs[i].id == spvs[j].id
    {
      set i: nat | i < |spvs| && expandedId == Some(spvs[i].id)
    }

    /** `toggleExpand(id)`: a row header's click. */
    method ToggleExpand(id: string)
      modifies this`expandedId
      ensures expandedId == Toggled(old(expandedId), id)
    {
      if expandedId == Some(id) {
        expandedId := None;
      } else {
        expandedId := Some(id);
      }
    }
  }

  /** Follows the test "should handle join SPV button click" (SpvManagement.test.tsx:77-93): expand the open SPV, its Join button calls back with its id. */
  method JoinScenario()
  {
    var open := SpvItem("1", "Tech Ventures SPV", 500000.0, 350000.0, "open", "TechCorp", 0, 25000.0, 12, "");
    var filled := SpvItem("2", "Healthcare Innovation Fund", 750000.0, 750000.0, "filled", "MediHealth", 0, 50000.0, 20, "");
    var list := new SpvList([open, filled]);
    list.ToggleExpand("1");
    assert JoinSpv("1") in Actions(list.spvs[0], list.expandedId);
    list.ToggleExpand("2");
    var acts := Actions(list.spvs[1], list.expandedId);
    assert JoinSpv("2") !in acts && ViewDetails("2") in acts;
    assert Actions(list.spvs[0], list.expandedId) == [];
  }
}
