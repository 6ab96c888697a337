/**
 * components/ui/document-list.tsx: how each document row is labelled (size
 * with a binary unit, access-level colour, type icon and type label), the
 * download and delete actions and the per-row loading flag.
 */
module DocumentList {
  import opened Common
  import DocumentUpload

  datatype Document = Document(
    id: string,
    name: string,
    docType: string,
    url: string,
    fileSize: nat,
    accessLevel: string,
    version: int,
    createdAt: string)

  // ---------------------------------------------------------------------------
  // formatFileSize

  const Kilo: nat := 1024

  /** `Math.pow(1024, i)` */
  function Pow1024(i: nat): (p: nat)
    ensures p >= 1
  {
    if i == 0 then 1 else Kilo * Pow1024(i - 1)
  }

  /**
   * `Math.floor(Math.log(bytes) / Math.log(1024))`, read exactly: the number of
   * whole powers of 1024 in `bytes`.
   */
  function UnitIndex(bytes: nat): (i: nat)
    requires bytes >= 1
    ensures Pow1024(i) <= bytes < Pow1024(i + 1)
    decreases bytes
  {
    if bytes < Kilo then 0
    else
      var q := bytes / Kilo;
      var j := UnitIndex(q);
      assert Kilo * Pow1024(j) <= Kilo * q <= bytes;
      assert bytes < Kilo * q + Kilo == Kilo * (q + 1) <= Kilo * Pow1024(j + 1);
      j + 1
  }

  /** The unit index is the only one whose power brackets the size. */
  lemma UnitIndexUnique(bytes: nat, i: nat)
    requires bytes >= 1
    requires Pow1024(i) <= bytes < Pow1024(i + 1)
    ensures UnitIndex(bytes) == i
  {
    var u := UnitIndex(bytes);
    if u < i {
      PowMonotone(u + 1, i);
    } else if i < u {
      PowMonotone(i + 1, u);
    }
  }

  lemma {:induction false} PowMonotone(a: nat, b: nat)
    requires a <= b
    ensures Pow1024(a) <= Pow1024(b)
    decreases b
  {
    if a < b {
      PowMonotone(a, b - 1);
    }
  }

  /** `sizes[i]`; an index past "GB" reads `undefined`, which prints as the word. */
  function UnitName(i: nat): (u: string)
    ensures i >= 4 <==> u == "undefined"
  {
    if i == 0 then "Bytes"
    else if i == 1 then "KB"
    else if i == 2 then "MB"
    else if i == 3 then "GB"
    else "undefined"
  }

  /** `parseFloat(x.toFixed(2))`: the nearest hundredth. */
  function Hundredths(x: real): (r: real)
    ensures x - 0.005 < r <= x + 0.005
    ensures (r * 100.0).Floor as real == r * 100.0
  {
    Round(x * 100.0) as real / 100.0
  }

  /** A number already written with two decimals is kept as it is. */
  lemma HundredthsIdempotent(x: real)
    ensures Hundredths(Hundredths(x)) == Hundredths(x)
  {
    var k := Round(x * 100.0);
    assert Hundredths(x) * 100.0 == k as real;
    RoundOfInt(k);
  }

  datatype SizeLabel = ZeroBytes | Sized(value: real, unit: string)

  /** `formatFileSize(bytes)` */
  function FormatFileSize(bytes: nat): (s: SizeLabel)
    ensures s == ZeroBytes <==> bytes == 0
    ensures s.Sized? ==> s.unit == UnitName(UnitIndex(bytes))
    ensures s.Sized? ==> s.value == Hundredths(bytes as real / Pow1024(UnitIndex(bytes)) as real)
  {
    if bytes == 0 then ZeroBytes
    else
      var i := UnitIndex(bytes);
      Sized(Hundredths(bytes as real / Pow1024(i) as real), UnitName(i))
  }

  /** The scaled size before rounding lies in [1, 1024): the unit is the largest that keeps it at least 1. */
  lemma ScaledSizeInRange(bytes: nat)
    requires bytes >= 1
    ensures 1.0 <= bytes as real / Pow1024(UnitIndex(bytes)) as real < 1024.0
  {
    var p := Pow1024(UnitIndex(bytes)) as real;
    var b := bytes as real;
    assert p <= b < 1024.0 * p;
    assert b / p * p == b;
  }

  /** The shown number is within [1, 1024] (1024 only by rounding up). */
  lemma FormatFileSizeBounds(bytes: nat)
    requires bytes >= 1
    ensures 1.0 <= FormatFileSize(bytes).value <= 1024.0
  {
    ScaledSizeInRange(bytes);
    var x := bytes as real / Pow1024(UnitIndex(bytes)) as real;
    var r := Round(x * 100.0);
    RoundMonotone(100.0, x * 100.0);
    RoundOfInt(100);
    RoundMonotone(x * 100.0, 102400.0);
    RoundOfInt(102400);
  }

  /** Sizes from 1024^4 bytes up have no unit name and are labelled "undefined". */
  lemma UnitUndefinedFromTerabyte(bytes: nat)
    requires bytes >= 1
    ensures FormatFileSize(bytes).unit == "undefined" <==> bytes >= Pow1024(4)
  {
    var i := UnitIndex(bytes);
    if i >= 4 {
      PowMonotone(4, i);
    } else {
      PowMonotone(i + 1, 4);
    }
  }

  /** Concrete labels: 0, 500 bytes, 1.5 KB, exactly 1 MB. */
  lemma FormatFileSizeExamples()
    ensures FormatFileSize(0) == ZeroBytes
    ensures FormatFileSize(500) == Sized(500.0, "Bytes")
    ensures FormatFileSize(1536) == Sized(1.5, "KB")
    ensures FormatFileSize(1048576) == Sized(1.0, "MB")
  {
    UnitIndexUnique(500, 0);
    UnitIndexUnique(1536, 1);
    UnitIndexUnique(1048576, 2);
    RoundOfInt(50000);
    RoundOfInt(150);
    RoundOfInt(100);
    assert 500 as real / 1.0 * 100.0 == 50000 as real;
    assert 1536 as real / 1024.0 * 100.0 == 150 as real;
    assert 1048576 as real / 1048576.0 * 100.0 == 100 as real;
  }

  // ---------------------------------------------------------------------------
  // Colours, icons and labels

  /** `getAccessLevelColor(level)` */
  function AccessLevelColor(level: string): (c: string)
    ensures c == "bg-green-100 text-green-800" <==> level == "public"
    ensures c == "bg-yellow-100 text-yellow-800" <==> level == "investors"
    ensures c == "bg-red-100 text-red-800" <==> level == "admins"
    ensures c == "bg-gray-100 text-gray-800" <==> level !in {"public", "investors", "admins"}
  {
    if level == "public" then "bg-green-100 text-green-800"
    else if level == "investors" then "bg-yellow-100 text-yellow-800"
    else if level == "admins" then "bg-red-100 text-red-800"
    else "bg-gray-100 text-gray-800"
  }

  /** The icons `getDocumentIcon` returns: bar chart, clipboard, lock, rising chart, money bag, page. */
  datatype DocGlyph = BarChart | Clipboard | Lock | RisingChart | MoneyBag | Page

  const DocumentTypes: set<string> := {"pitch_deck", "term_sheet", "safe", "cap_table", "financials"}

  /** `getDocumentIcon(type)` */
  function DocumentIcon(docType: string): (g: DocGlyph)
    ensures g == Page <==> docType !in DocumentTypes
  {
    if docType == "pitch_deck" then BarChart
    else if docType == "term_sheet" then Clipboard
    else if docType == "safe" then Lock
    else if docType == "cap_table" then RisingChart
    else if docType == "financials" then MoneyBag
    else Page
  }

  /** The five known types get five different icons. */
  lemma DocumentIconInjective(a: string, b: string)
    requires a in DocumentTypes && b in DocumentTypes && a != b
    ensures DocumentIcon(a) != DocumentIcon(b)
  {
  }

  /** `type.replace('_', ' ')`: only the FIRST underscore becomes a space. */
  function TypeLabel(docType: string): (s: string)
    ensures |s| == |docType|
    ensures '_' !in docType ==> s == docType
    ensures '_' in docType ==> exists k :: 0 <= k < |docType| && docType[k] == '_' && '_' !in docType[..k] && s == docType[..k] + " " + docType[k + 1..]
  {
    ReplaceFirst(docType, '_', ' ')
  }

  // ---------------------------------------------------------------------------
  // Deleting the stored object

  /**
   * `document.url.split('/').pop()`, the name `handleDelete` hands to the
   * storage `remove`; nothing is removed when it is empty.
   */
  function UrlLastSegment(url: string): (name: Option<string>)
    ensures name.Some? ==> name.value != [] && '/' !in name.value
    ensures name.None? <==> AfterLast(url, '/') == []
  {
    var last := AfterLast(url, '/');
    if last == [] then None else Some(last)
  }

  /**
   * The last segment of a document's URL is never the path the upload stored
   * the object under, which always has the company folder in front: the
   * delete as written asks storage to remove an object that does not exist.
   */
  lemma DeleteMissesStoredObject(url: string, companyId: string, now: nat, fileName: string)
    ensures UrlLastSegment(url) != Some(DocumentUpload.StoragePath(companyId, now, fileName))
  {
  }

  /**
   * With the public URL built as the bucket's URL prefix followed by the
   * stored path, the last segment is only the time-stamped file name.
   */
  lemma DeleteNamesOnlyFileName(bucketUrl: string, companyId: string, now: nat, fileName: string)
    requires '/' !in fileName
    ensures UrlLastSegment(bucketUrl + DocumentUpload.StoragePath(companyId, now, fileName))
            == Some(NatToString(now) + "." + DocumentUpload.FileExt(fileName))
  {
    var ext := DocumentUpload.FileExt(fileName);
    var tail := NatToString(now) + "." + ext;
    assert '/' !in ext by {
      assert ext == fileName[|fileName| - |ext|..];
    }
    assert '/' !in NatToString(now) by {
      assert IsDigits(NatToString(now));
    }
    assert '/' !in tail;
    var url := bucketUrl + DocumentUpload.StoragePath(companyId, now, fileName);
    assert url == (bucketUrl + companyId) + ['/'] + tail;
    AfterLastOfSuffix(bucketUrl + companyId, tail, '/');
  }

  lemma AfterLastOfSuffix(prefix: string, tail: string, sep: char)
    requires sep !in tail
    ensures AfterLast(prefix + [sep] + tail, sep) == tail
  {
    var s := prefix + [sep] + tail;
    var r := AfterLast(s, sep);
    assert s[|prefix|] == sep;
    assert s == s[..|s| - |r| - 1] + [sep] + r;
    if |r| > |tail| {
      assert false;
    }
  }

  /**
   * The object path inside the documents bucket, recovered by removing the
   * bucket's public URL prefix: what the delete should hand to `remove`.
   */
  function StoredObjectPath(url: string, bucketUrl: string): (path: Option<string>)
    ensures path.Some? ==> url == bucketUrl + path.value && path.value != []
    ensures path.None? <==> !(|bucketUrl| < |url| && url[..|bucketUrl|] == bucketUrl)
  {
    if |bucketUrl| < |url| && url[..|bucketUrl|] == bucketUrl then Some(url[|bucketUrl|..]) else None
  }

  /** Recovering the path from the URL the upload stored gives back the upload's storage path. */
  lemma StoredObjectPathRoundTrip(bucketUrl: string, companyId: string, now: nat, fileName: string)
    ensures StoredObjectPath(bucketUrl + DocumentUpload.StoragePath(companyId, now, fileName), bucketUrl)
            == Some(DocumentUpload.StoragePath(companyId, now, fileName))
  {
    var p := DocumentUpload.StoragePath(companyId, now, fileName);
    var url := bucketUrl + p;
    assert url[..|bucketUrl|] == bucketUrl;
    assert url[|bucketUrl|..] == p;
  }

  // ---------------------------------------------------------------------------
  // The table and its actions

  /** The notification row logged for a download. */
  datatype DownloadLog = DownloadLog(userId: string, message: string, kind: string, relatedId: string)

  /** What `handleDelete` does on the backend. */
  datatype DeleteEffect = DeleteEffect(rowId: string, removedObject: Option<string>, refreshed: bool)

  class DocumentTable {
    var documents: seq<Document>
    var loading: Option<string>

    constructor (docs: seq<Document>)
      ensures documents == docs && loading.None?
    {
      documents := docs;
      loading := None;
    }

    /** With no documents the table is replaced by the empty-category message. */
    predicate ShowsEmptyMessage()
      reads this
    {
      |documents| == 0
    }

    /** Download and Delete of a row are disabled while that row is loading. */
    predicate ActionsDisabled(doc: Document)
      reads this
    {
      loading == Some(doc.id)
    }

    /**
     * `handleDownload`: the URL is opened and, for a signed-in user, a "view"
     * notification about the download is logged; the row stops loading.
     */
    method HandleDownload(doc: Document, user: Option<string>) returns (openedUrl: string, log: Option<DownloadLog>)
      modifies this`loading
      ensures openedUrl == doc.url
      ensures log.None? <==> user.None?
      ensures log.Some? ==> log.value == DownloadLog(user.value, "Document \"" + doc.name + "\" was downloaded", "view", doc.id)
      ensures loading.None?
    {
      loading := Some(doc.id);
      openedUrl := doc.url;
      if user.Some? {
        log := Some(DownloadLog(user.value, "Document \"" + doc.name + "\" was downloaded", "view", doc.id));
      } else {
        log := None;
      }
      loading := None;
    }

    /**
     * `handleDelete`: nothing unless confirmed; a failed row delete stops
     * there; otherwise the object named by the URL's last segment is removed
     * (none when that segment is empty) and the page is refreshed. The row
     * stops loading either way.
     */
    method HandleDelete(doc: Document, confirmed: bool, rowDeleted: bool)
      returns (effect: Option<DeleteEffect>)
      modifies this`loading
      ensures !confirmed ==> effect.None? && loading == old(loading)
      ensures confirmed ==> loading.None?
      ensures confirmed && !rowDeleted ==> effect.None?
      ensures confirmed && rowDeleted ==>
                effect == Some(DeleteEffect(doc.id, UrlLastSegment(doc.url), true))
    {
      if !confirmed {
        return None;
      }
      loading := Some(doc.id);
      if rowDeleted {
        effect := Some(DeleteEffect(doc.id, UrlLastSegment(doc.url), true));
      } else {
        effect := None;
      }
      loading := None;
    }

    /**
     * The corrected delete: the same steps, but the object removed is the
     * one at the document's path inside the bucket, the path the upload
     * stored it under (see StoredObjectPathRoundTrip).
     */
    method HandleDeleteByStoredPath(doc: Document, confirmed: bool, rowDeleted: bool, bucketUrl: string)
      returns (effect: Option<DeleteEffect>)
      modifies this`loading
      ensures !confirmed ==> effect.None? && loading == old(loading)
      ensures confirmed ==> loading.None?
      ensures confirmed && !rowDeleted ==> effect.None?
      ensures confirmed && rowDeleted ==>
                effect == Some(DeleteEffect(doc.id, StoredObjectPath(doc.url, bucketUrl), true))
    {
      if !confirmed {
        return None;
      }
      loading := Some(doc.id);
      if rowDeleted {
        effect := Some(DeleteEffect(doc.id, StoredObjectPath(doc.url, bucketUrl), true));
      } else {
        effect := None;
      }
      loading := None;
    }
  }
}
