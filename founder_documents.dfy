/**
 * app/dashboard/founder/documents/page.tsx: the company's documents grouped
 * by type (one list per type, in order of first appearance), the five
 * category cards and the three access-level totals.
 */
module FounderDocuments {
  import opened Common
  import DocumentList

  type Document = DocumentList.Document

  /** The documents' types, in list order. */
  function Types(docs: seq<Document>): (ts: seq<string>)
    ensures |ts| == |docs|
    ensures forall i :: 0 <= i < |docs| ==> ts[i] == docs[i].docType
  {
    seq(|docs|, i requires 0 <= i < |docs| => docs[i].docType)
  }

  /** The documents of type `t`, in list order. */
  function OfType(docs: seq<Document>, t: string): (r: seq<Document>)
    ensures |r| == CountOf(Types(docs), t)
  {
    if docs == [] then []
    else
      var init := docs[..|docs| - 1];
      var last := docs[|docs| - 1];
      assert Types(docs)[..|docs| - 1] == Types(init);
      assert docs == init + [last];
      OfType(init, t) + (if last.docType == t then [last] else [])
  }

  /** The distinct types in order of first appearance: the key order of the grouping object. */
  function TypesInOrder(docs: seq<Document>): (ks: seq<string>)
    ensures Distinct(ks)
  {
    if docs == [] then []
    else
      var init := docs[..|docs| - 1];
      var last := docs[|docs| - 1];
      var ks := TypesInOrder(init);
      if last.docType in ks then ks else ks + [last.docType]
  }

  /** A document is in its type's list, and the list holds nothing else. */
  lemma {:induction false} OfTypeMembers(docs: seq<Document>, t: string)
    ensures forall d :: d in OfType(docs, t) <==> d in docs && d.docType == t
  {
    if docs != [] {
      var init := docs[..|docs| - 1];
      OfTypeMembers(init, t);
      assert docs == init + [docs[|docs| - 1]];
    }
  }

  /** A type that is not a key has no documents. */
  lemma {:induction false} OfTypeAbsent(docs: seq<Document>, t: string)
    requires t !in TypesInOrder(docs)
    ensures OfType(docs, t) == []
  {
    if docs != [] {
      OfTypeAbsent(docs[..|docs| - 1], t);
    }
  }

  /** The keys are exactly the types that occur. */
  lemma {:induction false} TypesInOrderMembers(docs: seq<Document>)
    ensures forall t :: t in TypesInOrder(docs) <==> exists i :: 0 <= i < |docs| && docs[i].docType == t
  {
    if docs != [] {
      var init := docs[..|docs| - 1];
      TypesInOrderMembers(init);
      assert forall i :: 0 <= i < |init| ==> init[i] == docs[i];
    }
  }

  /** One group per key, holding the documents of that type. */
  function GroupsFor(docs: seq<Document>, ks: seq<string>): (gs: seq<(string, seq<Document>)>)
    ensures |gs| == |ks|
    ensures forall j :: 0 <= j < |ks| ==> gs[j] == (ks[j], OfType(docs, ks[j]))
  {
    if ks == [] then [] else GroupsFor(docs, ks[..|ks| - 1]) + [(ks[|ks| - 1], OfType(docs, ks[|ks| - 1]))]
  }

  /** `documentsByType`, specified: for each type in order of first appearance, its documents in order. */
  function Grouped(docs: seq<Document>): seq<(string, seq<Document>)>
  {
    GroupsFor(docs, TypesInOrder(docs))
  }

  /** The position of key `t` among the groups, as the property lookup `acc[t]`. */
  function KeyIndex(gs: seq<(string, seq<Document>)>, t: string): (j: Option<nat>)
    ensures j.None? <==> forall k :: 0 <= k < |gs| ==> gs[k].0 != t
    ensures j.Some? ==> j.value < |gs| && gs[j.value].0 == t
  {
    if gs == [] then None
    else if gs[|gs| - 1].0 == t then Some(|gs| - 1)
    else KeyIndex(gs[..|gs| - 1], t)
  }

  lemma OfTypeSnoc(prefix: seq<Document>, d: Document, k: string)
    ensures d.docType == k ==> OfType(prefix + [d], k) == OfType(prefix, k) + [d]
    ensures d.docType != k ==> OfType(prefix + [d], k) == OfType(prefix, k)
  {
    assert (prefix + [d])[..|prefix|] == prefix;
    assert OfType(prefix, k) + [] == OfType(prefix, k);
  }

  lemma TypesInOrderSnoc(prefix: seq<Document>, d: Document)
    ensures TypesInOrder(prefix + [d]) ==
            (if d.docType in TypesInOrder(prefix) then TypesInOrder(prefix) else TypesInOrder(prefix) + [d.docType])
  {
    assert (prefix + [d])[..|prefix|] == prefix;
  }

  /** Pushing onto an existing group: the type is already a key, and only its list grows. */
  lemma PushExisting(prefix: seq<Document>, d: Document, j: nat)
    requires j < |Grouped(prefix)| && Grouped(prefix)[j].0 == d.docType
    ensures Grouped(prefix + [d]) == Grouped(prefix)[j := (d.docType, Grouped(prefix)[j].1 + [d])]
  {
    var ks := TypesInOrder(prefix);
    TypesInOrderSnoc(prefix, d);
    assert ks[j] == d.docType;
    assert d.docType in ks;
    var lhs := Grouped(prefix + [d]);
    var rhs := Grouped(prefix)[j := (d.docType, Grouped(prefix)[j].1 + [d])];
    assert TypesInOrder(prefix + [d]) == ks;
    assert |lhs| == |ks| == |rhs|;
    forall k | 0 <= k < |ks| ensures lhs[k] == rhs[k] {
      OfTypeSnoc(prefix, d, ks[k]);
      if k != j {
        assert ks[k] != ks[j];
      }
    }
  }

  /** A new type: its one-document group goes after the existing ones, which do not change. */
  lemma AddNew(prefix: seq<Document>, d: Document)
    requires d.docType !in TypesInOrder(prefix)
    ensures Grouped(prefix + [d]) == Grouped(prefix) + [(d.docType, [d])]
  {
    var ks := TypesInOrder(prefix);
    TypesInOrderSnoc(prefix, d);
    OfTypeAbsent(prefix, d.docType);
    var ks' := ks + [d.docType];
    var lhs := Grouped(prefix + [d]);
    var rhs := Grouped(prefix) + [(d.docType, [d])];
    assert |lhs| == |ks'| == |rhs|;
    forall k | 0 <= k < |ks'| ensures lhs[k] == rhs[k] {
      OfTypeSnoc(prefix, d, ks'[k]);
      if k == |ks| {
        assert [] + [d] == [d];
      } else {
        assert ks'[k] == ks[k];
      }
    }
  }

  /** A type that no group has as its key is not a key of the specification either. */
  lemma NotAKey(docs: seq<Document>, t: string)
    requires forall k :: 0 <= k < |Grouped(docs)| ==> Grouped(docs)[k].0 != t
    ensures t !in TypesInOrder(docs)
  {
    var ks := TypesInOrder(docs);
    forall k | 0 <= k < |ks| ensures ks[k] != t {
      assert Grouped(docs)[k].0 == ks[k];
    }
  }

  /**
   * The `reduce` that builds `documentsByType`: for each document, create its
   * type's list when missing, then push the document onto it. A missing
   * result (`documents` null) gives no groups.
   */
  method GroupByType(documents: Option<seq<Document>>) returns (groups: seq<(string, seq<Document>)>)
    ensures documents.None? ==> groups == []
    ensures documents.Some? ==> groups == Grouped(documents.value)
  {
    groups := [];
    if documents.None? {
      return;
    }
    var docs := documents.value;
    var i := 0;
    while i < |docs|
      invariant 0 <= i <= |docs|
      invariant groups == Grouped(docs[..i])
      decreases |docs| - i
    {
      var d := docs[i];
      assert docs[..i + 1] == docs[..i] + [d];
      match KeyIndex(groups, d.docType) {
        case Some(j) =>
          PushExisting(docs[..i], d, j);
          groups := groups[j := (d.docType, groups[j].1 + [d])];
        case None =>
          NotAKey(docs[..i], d.docType);
          AddNew(docs[..i], d);
          groups := groups + [(d.docType, [d])];
      }
      i := i + 1;
    }
    assert docs[..i] == docs;
  }

  /** The groups' sizes, added up. */
  function SumSizes(gs: seq<(string, seq<Document>)>): nat
  {
    if gs == [] then 0 else SumSizes(gs[..|gs| - 1]) + |gs[|gs| - 1].1|
  }

  lemma {:induction false} SumSizesGroupsFor(docs: seq<Document>, ks: seq<string>)
    ensures SumSizes(GroupsFor(docs, ks)) == CountsOf(Types(docs), ks)
  {
    if ks != [] {
      var gs := GroupsFor(docs, ks);
      assert gs[..|gs| - 1] == GroupsFor(docs, ks[..|ks| - 1]);
      SumSizesGroupsFor(docs, ks[..|ks| - 1]);
    }
  }

  /** Every group is non-empty and holds exactly the documents of its type. */
  lemma GroupedMembers(docs: seq<Document>, j: nat)
    requires j < |Grouped(docs)|
    ensures |Grouped(docs)[j].1| > 0
    ensures forall d :: d in Grouped(docs)[j].1 <==> d in docs && d.docType == Grouped(docs)[j].0
  {
    var ks := TypesInOrder(docs);
    TypesInOrderMembers(docs);
    OfTypeMembers(docs, ks[j]);
    assert ks[j] in ks;
    var i :| 0 <= i < |docs| && docs[i].docType == ks[j];
    assert docs[i] in OfType(docs, ks[j]);
  }

  /** The group sizes add up to the number of documents: no document is lost or counted twice. */
  lemma GroupedTotal(docs: seq<Document>)
    ensures SumSizes(Grouped(docs)) == |docs|
  {
    var ks := TypesInOrder(docs);
    SumSizesGroupsFor(docs, ks);
    TypesInOrderMembers(docs);
    forall i | 0 <= i < |docs| ensures Types(docs)[i] in ks {
      assert docs[i].docType in ks;
    }
    CountsOfCovering(Types(docs), ks);
  }

  /** There are no groups, and the "No documents uploaded yet" panel shows, exactly when there are no documents. */
  lemma GroupedEmpty(docs: seq<Document>)
    ensures Grouped(docs) == [] <==> docs == []
  {
    if docs != [] {
      TypesInOrderMembers(docs);
      assert docs[0].docType in TypesInOrder(docs);
    }
  }

  // ---------------------------------------------------------------------------
  // Cards and totals

  /** `documentsByType[type]?.length || 0` */
  function CategoryCount(groups: seq<(string, seq<Document>)>, t: string): (n: nat)
    ensures n > 0 ==> exists j :: 0 <= j < |groups| && groups[j].0 == t && |groups[j].1| == n
  {
    match KeyIndex(groups, t)
    case None => 0
    case Some(j) => |groups[j].1|
  }

  /** A card shows how many documents have its type. */
  lemma CategoryCountIsTypeCount(docs: seq<Document>, t: string)
    ensures CategoryCount(Grouped(docs), t) == CountOf(Types(docs), t)
  {
    var ks := TypesInOrder(docs);
    var gs := Grouped(docs);
    match KeyIndex(gs, t) {
      case Some(j) =>
        assert gs[j] == (ks[j], OfType(docs, ks[j]));
      case None =>
        NotAKey(docs, t);
        OfTypeAbsent(docs, t);
    }
  }

  /** The five overview cards; there is no card for "cap_table" documents. */
  const CardTypes: seq<string> := ["pitch_deck", "term_sheet", "safe", "financials", "custom"]

  /** The five cards together never count a document twice. */
  lemma CardsTotalBounded(docs: seq<Document>)
    ensures CountsOf(Types(docs), CardTypes) <= |docs|
  {
    CountsOfDistinctBounded(Types(docs), CardTypes);
  }

  /** A cap-table document is in no card, so the cards then add up to fewer than the documents. */
  lemma CapTableUncounted(docs: seq<Document>, i: nat)
    requires i < |docs| && docs[i].docType == "cap_table"
    ensures CountsOf(Types(docs), CardTypes) < |docs|
  {
    var ts := Types(docs);
    assert ts == ts[..i] + [ts[i]] + ts[i + 1..];
    CountsOfAppend(ts[..i] + [ts[i]], ts[i + 1..], CardTypes);
    CountsOfAppend(ts[..i], [ts[i]], CardTypes);
    OneEntryCountsOnce(ts[i], CardTypes);
    CountsOfDistinctBounded(ts[..i], CardTypes);
    CountsOfDistinctBounded(ts[i + 1..], CardTypes);
  }

  /** The access levels of the documents, in list order. */
  function AccessLevels(docs: seq<Document>): (ls: seq<string>)
    ensures |ls| == |docs|
    ensures forall i :: 0 <= i < |docs| ==> ls[i] == docs[i].accessLevel
  {
    seq(|docs|, i requires 0 <= i < |docs| => docs[i].accessLevel)
  }

  /** `documents?.filter(d => d.access_level === level).length || 0` */
  function AccessCount(documents: Option<seq<Document>>, level: string): (n: nat)
    ensures documents.None? ==> n == 0
    ensures documents.Some? ==> n == CountOf(AccessLevels(documents.value), level) && n <= |documents.value|
  {
    match documents
    case None => 0
    case Some(docs) => CountOf(AccessLevels(docs), level)
  }

  /** The public, investor-only and admin-only totals never exceed the number of documents. */
  lemma AccessTotalsBounded(docs: seq<Document>)
    ensures AccessCount(Some(docs), "public") + AccessCount(Some(docs), "investors") + AccessCount(Some(docs), "admins") <= |docs|
  {
    var levels := ["public", "investors", "admins"];
    var ls := AccessLevels(docs);
    CountsOfDistinctBounded(ls, levels);
    assert levels[..2] == ["public", "investors"];
    assert levels[..2][..1] == ["public"];
    assert levels[..2][..1][..0] == [];
    assert CountsOf(ls, levels) == CountsOf(ls, levels[..2]) + CountOf(ls, "admins");
    assert CountsOf(ls, levels[..2]) == CountsOf(ls, levels[..2][..1]) + CountOf(ls, "investors");
    assert CountsOf(ls, levels[..2][..1]) == CountOf(ls, "public");
  }
}
