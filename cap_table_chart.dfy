/**
 * components/ui/cap-table-chart.tsx: the pie chart's slices, one per share
 * class with outstanding shares, each coloured from a six-colour palette by
 * its position among the slices.
 */
module CapTableChart {
  import opened Common

  /** A share class row; a missing share count (null) reads as 0, as `Number(null)` does. */
  datatype ShareClass = ShareClass(
    id: string,
    name: string,
    classType: string,
    pricePerShare: Option<real>,
    totalShares: Option<int>,
    outstandingShares: Option<int>)

  /** `Number(sc.outstanding_shares)`, and equally `Number(sc.outstanding_shares || 0)`. */
  function Outstanding(sc: ShareClass): int
  {
    match sc.outstandingShares
    case None => 0
    case Some(n) => n
  }

  const Colors: seq<string> := ["#3B82F6", "#8B5CF6", "#10B981", "#F59E0B", "#EF4444", "#6B7280"]

  lemma ColorsDistinct()
    ensures forall i, j :: 0 <= i < j < |Colors| ==> Colors[i] != Colors[j]
  {
  }

  datatype Slice = Slice(name: string, value: int, color: string, classType: string)

  /** `data.filter(sc => Number(sc.outstanding_shares) > 0)` */
  function WithShares(data: seq<ShareClass>): (r: seq<ShareClass>)
    ensures |r| <= |data|
    ensures forall i :: 0 <= i < |r| ==> Outstanding(r[i]) > 0
  {
    if data == [] then []
    else
      var init := data[..|data| - 1];
      var last := data[|data| - 1];
      assert data == init + [last];
      WithShares(init) + (if Outstanding(last) > 0 then [last] else [])
  }

  /** The filter keeps exactly the classes with shares. */
  lemma {:induction false} WithSharesMembers(data: seq<ShareClass>)
    ensures forall sc :: sc in WithShares(data) <==> sc in data && Outstanding(sc) > 0
  {
    if data != [] {
      var init := data[..|data| - 1];
      WithSharesMembers(init);
      assert data == init + [data[|data| - 1]];
    }
  }

  /** The filter keeps the classes' order: it distributes over concatenation. */
  lemma {:induction false} WithSharesAppend(a: seq<ShareClass>, b: seq<ShareClass>)
    ensures WithShares(a + b) == WithShares(a) + WithShares(b)
    decreases |b|
  {
    if b == [] {
      assert a + b == a;
    } else {
      assert (a + b)[..|a + b| - 1] == a + b[..|b| - 1];
      WithSharesAppend(a, b[..|b| - 1]);
    }
  }

  /** `chartData`: the kept classes, the k-th coloured `COLORS[k % COLORS.length]`. */
  function ChartData(data: seq<ShareClass>): (slices: seq<Slice>)
    ensures |slices| == |WithShares(data)|
    ensures forall k :: 0 <= k < |slices| ==>
              var sc := WithShares(data)[k];
              slices[k] == Slice(sc.name, Outstanding(sc), Colors[k % |Colors|], sc.classType)
  {
    var kept := WithShares(data);
    seq(|kept|, k requires 0 <= k < |kept| => Slice(kept[k].name, Outstanding(kept[k]), Colors[k % |Colors|], kept[k].classType))
  }

  /** Every slice has a positive value. */
  lemma SlicesPositive(data: seq<ShareClass>)
    ensures forall k :: 0 <= k < |ChartData(data)| ==> ChartData(data)[k].value > 0
  {
  }

  /** Slices fewer than six positions apart have different colours; in particular neighbours do. */
  lemma NearbySlicesDiffer(data: seq<ShareClass>, i: nat, j: nat)
    requires i < j < |ChartData(data)| && j - i < |Colors|
    ensures ChartData(data)[i].color != ChartData(data)[j].color
  {
    var n := |Colors|;
    ColorsDistinct();
    var qi, qj := i / n, j / n;
    assert i == qi * n + i % n && j == qj * n + j % n;
    assert i % n != j % n by {
      assert 0 < j - i < n;
    }
  }

  /** "No data to display" shows exactly when no class has outstanding shares. */
  lemma NoDataIff(data: seq<ShareClass>)
    ensures ChartData(data) == [] <==> forall i :: 0 <= i < |data| ==> Outstanding(data[i]) <= 0
  {
    WithSharesMembers(data);
    if ChartData(data) == [] {
      forall i | 0 <= i < |data| ensures Outstanding(data[i]) <= 0 {
        assert data[i] !in WithShares(data);
      }
    } else {
      var x := WithShares(data)[0];
      assert x in data;
      var i :| 0 <= i < |data| && data[i] == x;
      assert Outstanding(data[i]) > 0;
    }
  }

  /** The values of the slices, added up: the whole the pie's percentages refer to. */
  function SliceTotal(slices: seq<Slice>): int
  {
    if slices == [] then 0 else SliceTotal(slices[..|slices| - 1]) + slices[|slices| - 1].value
  }

  /** The outstanding shares of the classes, added up. */
  function OutstandingTotal(data: seq<ShareClass>): int
  {
    if data == [] then 0 else OutstandingTotal(data[..|data| - 1]) + Outstanding(data[|data| - 1])
  }

  lemma {:induction false} SliceTotalIsKeptTotal(data: seq<ShareClass>)
    ensures SliceTotal(ChartData(data)) == OutstandingTotal(WithShares(data))
  {
    var kept := WithShares(data);
    var slices := ChartData(data);
    SliceTotalOfPrefix(kept, |kept|);
    assert kept[..|kept|] == kept;
  }

  lemma {:induction false} SliceTotalOfPrefix(kept: seq<ShareClass>, m: nat)
    requires m <= |kept|
    ensures SliceTotal(seq(m, k requires 0 <= k < m => Slice(kept[k].name, Outstanding(kept[k]), Colors[k % |Colors|], kept[k].classType)))
            == OutstandingTotal(kept[..m])
  {
    var s := seq(m, k requires 0 <= k < m => Slice(kept[k].name, Outstanding(kept[k]), Colors[k % |Colors|], kept[k].classType));
    if m > 0 {
      var s' := seq(m - 1, k requires 0 <= k < m - 1 => Slice(kept[k].name, Outstanding(kept[k]), Colors[k % |Colors|], kept[k].classType));
      assert s[..m - 1] == s';
      assert kept[..m][..m - 1] == kept[..m - 1];
      SliceTotalOfPrefix(kept, m - 1);
    }
  }

  /** With no negative share counts, dropping the classes without shares keeps the total. */
  lemma {:induction false} KeptTotal(data: seq<ShareClass>)
    requires forall i :: 0 <= i < |data| ==> Outstanding(data[i]) >= 0
    ensures OutstandingTotal(WithShares(data)) == OutstandingTotal(data)
  {
    if data != [] {
      var init := data[..|data| - 1];
      var last := data[|data| - 1];
      assert forall i :: 0 <= i < |init| ==> init[i] == data[i];
      KeptTotal(init);
      var tail := if Outstanding(last) > 0 then [last] else [];
      OutstandingTotalAppend(WithShares(init), tail);
      assert OutstandingTotal(tail) == Outstanding(last) by {
        if tail != [] {
          assert tail[..0] == [];
        }
      }
    }
  }

  lemma {:induction false} OutstandingTotalAppend(a: seq<ShareClass>, b: seq<ShareClass>)
    ensures OutstandingTotal(a + b) == OutstandingTotal(a) + OutstandingTotal(b)
    decreases |b|
  {
    if b == [] {
      assert a + b == a;
    } else {
      assert (a + b)[..|a + b| - 1] == a + b[..|b| - 1];
      OutstandingTotalAppend(a, b[..|b| - 1]);
    }
  }

  /** The chart test's three classes, with a zero-share class added. */
  function FixtureClasses(): seq<ShareClass>
  {
    [ShareClass("1", "Common Stock", "common", None, None, Some(1000000)),
     ShareClass("2", "Series A Preferred", "preferred", None, None, Some(250000)),
     ShareClass("3", "Employee Options", "option", None, None, Some(150000)),
     ShareClass("4", "Future Options", "option", None, None, Some(0))]
  }

  /** The filter drops the zero-share class and keeps the other three in order. */
  lemma FixtureKept()
    ensures WithShares(FixtureClasses()) == FixtureClasses()[..3]
  {
    var data := FixtureClasses();
    WithSharesAppend(data[..3], [data[3]]);
    assert data[..3] + [data[3]] == data;
    assert data[..1][..0] == [];
    assert WithShares(data[..1]) == data[..1];
    assert data[..2][..1] == data[..1];
    assert WithShares(data[..2]) == data[..2];
    assert data[..3][..2] == data[..2];
  }

  /** The fixture's slices: the empty class gets none, and the colours follow the kept positions. */
  lemma FixtureSlices()
    ensures ChartData(FixtureClasses()) == [
              Slice("Common Stock", 1000000, "#3B82F6", "common"),
              Slice("Series A Preferred", 250000, "#8B5CF6", "preferred"),
              Slice("Employee Options", 150000, "#10B981", "option")]
  {
    FixtureKept();
  }
}
