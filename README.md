# CapConnect rules, modelled in Dafny

CapConnect is a web platform that connects startup founders with investors.
Founders publish a company profile, upload documents, keep a cap table and
open SPVs (special purpose vehicles). Investors browse companies, commit
investments, join SPVs and follow their portfolio.

Almost all of it is page rendering wrapped around database queries. What
this project models is the layer of small, deterministic rules under that
rendering:

- the notification feed and its transitions;
- the deal-room message rules;
- document chunking and naming, file-size labels and grouping by type;
- cap-table sums and percentages;
- SPV progress, counts and averages;
- the browse filters kept in the URL query;
- the company card and its invest modal;
- the portfolio and analytics arithmetic.

Each of the repository's core files is one Dafny module:

| module | file |
|---|---|
| `NotificationCenter` | `components/ui/notification-center.tsx` |
| `DealRoom` | `components/ui/deal-room.tsx` |
| `DocumentUpload` | `components/ui/document-upload.tsx` |
| `DocumentList` | `components/ui/document-list.tsx` |
| `FounderDocuments` | `app/dashboard/founder/documents/page.tsx` |
| `CapTableChart` | `components/ui/cap-table-chart.tsx` |
| `FounderCapTable` | `app/dashboard/founder/cap-table/page.tsx` |
| `SpvManagement` | `components/ui/spv-management.tsx` |
| `SpvCard` | `components/ui/spv-card.tsx` |
| `FounderSpvs` | `app/dashboard/founder/spvs/page.tsx` |
| `CompanyFilters` | `components/ui/company-filters.tsx` |
| `CompanyCard` | `components/ui/company-card.tsx` |
| `InvestorInvestments` | `app/dashboard/investor/investments/page.tsx` |
| `InvestorDashboard` | `app/dashboard/investor/page.tsx` |
| `FounderAnalytics` | `app/dashboard/founder/analytics/page.tsx` |
| `InvestorAnalytics` | `app/dashboard/investor/analytics/page.tsx` |

`Common` holds the shared helpers: `Option`, rounding, sums and counts,
trimming, first-occurrence replacement and decimal digits.

**Component state is a class.** State that a component keeps and its
handlers replace becomes a Dafny `class`. Its handlers are methods whose
`ensures` give the new state as a function of the old one. Examples:

- the notification list;
- the deal-room input;
- the upload form;
- the expanded SPV;
- the members toggle;
- the URL parameters and the search box;
- the invest modal.

**Derived values are pure functions.** Sums, counts, labels and colours
are computed by pure functions, and lemmas relate those functions to one
another.

**Numbers.** Money and percentages are `real`. Counts and scores are `int`.
JavaScript's `Math.round(x)` is `Floor(x + 0.5)`, which is `Common.Round`.

**Time.** The clock is a parameter, and timestamps are epoch milliseconds.

**Database rows.** Rows fetched from the database are inputs. A list the
query may not return is an `Option<seq<...>>`, and the pages read a
missing list as empty or 0.

**Where the code and its description disagree, the model follows the
code:**

- **Company card target label.** A missing target reads "$TBD", not
  "TBD". The `$` sits outside the `||` (`capconnect/components/ui/company-card.tsx:102`).
- **Founder documents page.** The page has no card for "cap_table", though
  the upload form offers that type, so those documents are counted in no
  card (`FounderDocuments.CapTableUncounted`).
- **Investor dashboard.** "Portfolio Companies" counts the five fetched
  recent investments, so it never shows more than 5
  (`InvestorDashboard.PortfolioCountCapped`).
- **SPV progress with a zero target.** `calculateProgress` divides by the
  target. For a zero target the model gives the IEEE outcomes: a full bar,
  NaN or minus infinity. It does not require a positive target.

## Model

| member | source | states |
|---|---|---|
| NotificationCenter.UnreadCount | capconnect/components/ui/notification-center.tsx:241 | the unread count is at most the list length, and is 0 exactly when every entry is read |
| NotificationCenter.OffersMarkAllRead | capconnect/components/ui/notification-center.tsx:272-278 | "Mark all as read" is offered exactly when some entry offers "Mark read" (`OffersMarkRead`: it is unread) |
| NotificationCenter.BadgeFor | capconnect/components/ui/notification-center.tsx:251-255 | no badge exactly at 0 unread; "9+" above 9; otherwise the single digit of the count (as the notification test expects) |
| NotificationCenter.TimeAgoBucket | capconnect/components/ui/notification-center.tsx:235-238 | each elapsed-seconds range gets exactly one bucket: under 60 (future dates too) is "Just now"; minutes lie in 1..59 and hours in 1..23, each bracketing the elapsed time; days are at least 1 |
| NotificationCenter.FormatTimeAgo | capconnect/components/ui/notification-center.tsx:230-239 | the label (`RenderTimeAgo`) of the bucket for the elapsed whole seconds; a date at or after now shows "Just now" |
| NotificationCenter.ElapsedSeconds | capconnect/components/ui/notification-center.tsx:233 | the elapsed milliseconds divided by 1000 and rounded down; at most 0 exactly when less than a second has passed |
| NotificationCenter.Icon | capconnect/components/ui/notification-center.tsx:204-215 | the loudspeaker icon exactly for a type that is not view, commitment or compliance |
| NotificationCenter.Color | capconnect/components/ui/notification-center.tsx:217-228 | gray exactly for an unknown type |
| NotificationCenter.KnownKindsAreTold | capconnect/components/ui/notification-center.tsx:204-228 | two different known types get different icons and different colours |
| NotificationCenter.MarkRead | capconnect/components/ui/notification-center.tsx:109-115 | same length and order; each entry with the id becomes read, and every other entry is unchanged |
| NotificationCenter.MarkOne | capconnect/components/ui/notification-center.tsx:111-113 | one entry of the map: read exactly when it was read or has the id, otherwise unchanged |
| NotificationCenter.MarkAllRead | capconnect/components/ui/notification-center.tsx:145-147 | same length; each entry is itself with `is_read` set |
| NotificationCenter.RemoveId | capconnect/components/ui/notification-center.tsx:179-181 | removes exactly the entries with the id: the length drops by their number, no survivor has the id, and every other entry stays |
| NotificationCenter.Prepend | capconnect/components/ui/notification-center.tsx:85-88 | the new entry is first and the old list follows unchanged |
| NotificationCenter.MarkReadUnreadCount | capconnect/components/ui/notification-center.tsx:106-136 | marking an id read lowers the unread count by exactly that id's unread entries |
| NotificationCenter.UnreadWithId | capconnect/components/ui/notification-center.tsx:241 | the unread entries with a given id are no more than the unread entries |
| NotificationCenter.WithId | capconnect/components/ui/notification-center.tsx:109-115 | the entries with a given id: no more than the list holds, and none exactly when no entry has the id |
| NotificationCenter.MarkReadMonotone | capconnect/components/ui/notification-center.tsx:106-136 | marking read never raises the unread count and never unmarks a read entry |
| NotificationCenter.MarkReadIdempotent | capconnect/components/ui/notification-center.tsx:109-115 | marking the same id twice equals marking it once |
| NotificationCenter.MarkAllReadClears | capconnect/components/ui/notification-center.tsx:142-170 | after mark-all the unread count is 0, and ids and messages are kept |
| NotificationCenter.MarkAllReadWhenNoneUnread | capconnect/components/ui/notification-center.tsx:152-156 | with nothing unread, mark-all changes nothing, so the early return agrees |
| NotificationCenter.RemoveIdAppend | capconnect/components/ui/notification-center.tsx:179-181 | deletion distributes over concatenation, so survivors keep their relative order |
| NotificationCenter.RemoveAbsentId | capconnect/components/ui/notification-center.tsx:196-198 | deleting an id no entry carries is a no-op |
| NotificationCenter.PrependUnreadCount | capconnect/components/ui/notification-center.tsx:85-88 | a realtime insert adds one to the unread count exactly when it is unread |
| NotificationCenter.DemoFeed | capconnect/components/ui/notification-center.tsx:34-56 | the demo feed has 2 unread and badge "2"; its labels are "30m ago", "2h ago" and "1d ago" |
| NotificationCenter.NotificationFeed.constructor | capconnect/components/ui/notification-center.tsx:15-19 | the feed starts empty and not in demo mode |
| NotificationCenter.NotificationFeed.LoadDemo | capconnect/components/ui/notification-center.tsx:31-57 | without a backend the feed is the demo list, in demo mode, with 2 unread |
| NotificationCenter.NotificationFeed.Load | capconnect/components/ui/notification-center.tsx:64-100 | a fetch error gives demo mode and an empty list; a fetch gives the rows, or empty when none |
| NotificationCenter.NotificationFeed.MarkAsRead | capconnect/components/ui/notification-center.tsx:106-136 | the list becomes `MarkRead` of the old list, and the unread count drops by that id's unread entries |
| NotificationCenter.NotificationFeed.MarkAllAsRead | capconnect/components/ui/notification-center.tsx:142-170 | the list becomes `MarkAllRead` of the old list and nothing is unread; with nothing unread the list is untouched |
| NotificationCenter.NotificationFeed.DeleteNotification | capconnect/components/ui/notification-center.tsx:176-202 | the list becomes `RemoveId` of the old list |
| NotificationCenter.NotificationFeed.ReceiveInsert | capconnect/components/ui/notification-center.tsx:85-88 | the new row is prepended, and the unread count (`Unread`, which the bell turns into its `Badge`) rises by one exactly when it is unread |
| DealRoom.UnreadIds | capconnect/components/ui/deal-room.tsx:51-58 | at most one id per message; none exactly when all are read |
| DealRoom.UnreadIdsMembers | capconnect/components/ui/deal-room.tsx:51-58 | the ids reported are exactly those of unread messages |
| DealRoom.UnreadIdsAppend | capconnect/components/ui/deal-room.tsx:51-58 | the selection distributes over concatenation, so ids come in list order |
| DealRoom.MarkAsReadCall | capconnect/components/ui/deal-room.tsx:51-58 | `onMarkAsRead` is not called exactly when every message is read; otherwise it gets the non-empty unread ids (as the deal-room test expects) |
| DealRoom.OwnershipIsByRole | capconnect/components/ui/deal-room.tsx:80-82 | two different users with the same role see the same messages as their own (`IsOwnMessage`): roles are compared, not ids |
| DealRoom.SendDisabled | capconnect/components/ui/deal-room.tsx:116 | the Send button is disabled exactly when the input is all whitespace |
| DealRoom.Composer.constructor | capconnect/components/ui/deal-room.tsx:29 | the input starts empty |
| DealRoom.Composer.Type | capconnect/components/ui/deal-room.tsx:110 | the input holds the typed text |
| DealRoom.Composer.Submit | capconnect/components/ui/deal-room.tsx:42-48 | a blank input sends nothing and is kept; otherwise the untrimmed text is sent and the input cleared |
| DocumentUpload.Chunks | capconnect/components/ui/document-upload.tsx:151-157 | every chunk is non-empty and at most n long; all but the last are exactly n; empty text gives no chunks |
| DocumentUpload.ChunksConcat | capconnect/components/ui/document-upload.tsx:151-157 | joining the chunks in order gives back the text exactly |
| DocumentUpload.ChunkCount | capconnect/components/ui/document-upload.tsx:151-157 | the number of chunks is ceil(length / n) |
| DocumentUpload.ChunkText | capconnect/components/ui/document-upload.tsx:151-157 | the loop returns exactly `Chunks(text, n)`, which joins back to the text, with ceil(length / n) chunks |
| DocumentUpload.ChunkRows | capconnect/components/ui/document-upload.tsx:135-139 | each stored row carries its chunk and a `chunk_index` equal to its position |
| DocumentUpload.DefaultName | capconnect/components/ui/document-upload.tsx:41 | a final "." plus one or more characters other than "." and "/" is removed; a name without such a suffix is unchanged |
| DocumentUpload.FileExt | capconnect/components/ui/document-upload.tsx:67 | the text after the last ".", which contains no "."; the whole name when there is no "." |
| DocumentUpload.StoragePath | capconnect/components/ui/document-upload.tsx:68 | companyId + "/" + timestamp + "." + extension |
| DocumentUpload.AttemptFor | capconnect/components/ui/document-upload.tsx:56-99 | an upload goes to the storage path, and its chunks (`ChunksFor`) join back to the file text when the type contains "text" or "pdf" (`ShouldChunk`), and to nothing otherwise |
| DocumentUpload.UploadForm.constructor | capconnect/components/ui/document-upload.tsx:12-17 | the form starts at its defaults, not dragging and not uploading |
| DocumentUpload.UploadForm.HandleDrag | capconnect/components/ui/document-upload.tsx:22-30 | dragenter and dragover light the zone, dragleave darkens it, any other event leaves it |
| DocumentUpload.UploadForm.Select | capconnect/components/ui/document-upload.tsx:38-42 | the first file is selected; the name is filled from it only when empty |
| DocumentUpload.UploadForm.HandleDrop | capconnect/components/ui/document-upload.tsx:32-44 | the highlight goes off and the first dropped file is selected, the name defaulting only when empty |
| DocumentUpload.UploadForm.HandleFileSelect | capconnect/components/ui/document-upload.tsx:46-54 | the first chosen file is selected, the name defaulting only when empty; no file changes nothing |
| DocumentUpload.UploadForm.SetDocumentName | capconnect/components/ui/document-upload.tsx:220 | the name field holds the typed text |
| DocumentUpload.UploadForm.SetDocumentType | capconnect/components/ui/document-upload.tsx:231 | the type select holds the choice |
| DocumentUpload.UploadForm.SetAccessLevel | capconnect/components/ui/document-upload.tsx:249 | the access select holds the choice |
| DocumentUpload.UploadForm.UploadDocument | capconnect/components/ui/document-upload.tsx:56-115 | nothing is sent without a file or a name; otherwise the attempt for the form's fields (upload, insert, then the chunks to embed once both succeed); success resets the form, failure keeps it (the button is off while `UploadDisabled`) |
| DocumentList.Pow1024 | capconnect/components/ui/document-list.tsx:31 | a power of 1024 is at least 1 |
| DocumentList.UnitIndex | capconnect/components/ui/document-list.tsx:30 | the unit index i brackets the size: 1024^i <= bytes < 1024^(i+1) |
| DocumentList.UnitIndexUnique | capconnect/components/ui/document-list.tsx:30 | only one index brackets a size, so the index is the largest with 1024^i <= bytes |
| DocumentList.PowMonotone | capconnect/components/ui/document-list.tsx:31 | powers of 1024 grow with the exponent |
| DocumentList.UnitName | capconnect/components/ui/document-list.tsx:29-32 | an index from 4 on reads "undefined" |
| DocumentList.Hundredths | capconnect/components/ui/document-list.tsx:32 | the shown number is within half a hundredth of the exact one and is a whole number of hundredths |
| DocumentList.HundredthsIdempotent | capconnect/components/ui/document-list.tsx:32 | a number already written with two decimals is shown unchanged |
| DocumentList.FormatFileSize | capconnect/components/ui/document-list.tsx:27-33 | "0 Bytes" exactly for 0; otherwise the scaled size to two decimals with the bracketing unit |
| DocumentList.ScaledSizeInRange | capconnect/components/ui/document-list.tsx:29-32 | the scaled size before rounding lies in [1, 1024) |
| DocumentList.FormatFileSizeBounds | capconnect/components/ui/document-list.tsx:27-33 | the shown number lies in [1, 1024] |
| DocumentList.UnitUndefinedFromTerabyte | capconnect/components/ui/document-list.tsx:29-32 | the unit is "undefined" exactly from 1024^4 bytes up |
| DocumentList.FormatFileSizeExamples | capconnect/components/ui/document-list.tsx:27-33 | 0 is "0 Bytes", 500 is "500 Bytes", 1536 is "1.5 KB" and 1048576 is "1 MB" |
| DocumentList.AccessLevelColor | capconnect/components/ui/document-list.tsx:43-54 | green exactly for public, yellow exactly for investors, red exactly for admins, gray exactly for any other level |
| DocumentList.DocumentIcon | capconnect/components/ui/document-list.tsx:56-71 | the page icon exactly for an unknown type |
| DocumentList.DocumentIconInjective | capconnect/components/ui/document-list.tsx:56-71 | the known types have pairwise different icons |
| DocumentList.TypeLabel | capconnect/components/ui/document-list.tsx:177 | only the first "_" becomes a space; the length is kept |
| DocumentList.UrlLastSegment | capconnect/components/ui/document-list.tsx:117 | the name delete uses is the non-empty text after the last "/" of the URL |
| DocumentList.DeleteMissesStoredObject | capconnect/components/ui/document-list.tsx:117-121 | the name delete uses is never the path the upload stored |
| DocumentList.DeleteNamesOnlyFileName | capconnect/components/ui/document-list.tsx:117-121 | for an uploaded document, delete names only "timestamp.ext", without the company folder |
| DocumentList.AfterLastOfSuffix | capconnect/components/ui/document-list.tsx:117 | the text after the last separator is the tail that holds none |
| DocumentList.StoredObjectPath | capconnect/components/ui/document-list.tsx:117-121 | the object path is the URL minus the bucket prefix, absent when the URL does not start with it |
| DocumentList.StoredObjectPathRoundTrip | capconnect/components/ui/document-upload.tsx:67-73 | the path recovered from an uploaded document's URL is the storage path the upload used |
| DocumentList.DocumentTable.constructor | capconnect/components/ui/document-list.tsx:22-23 | the table holds the documents, and no row is loading |
| DocumentList.DocumentTable.HandleDownload | capconnect/components/ui/document-list.tsx:73-98 | the document's URL is opened; a view is logged with the download message exactly when there is a user; the row stops loading (while a row loads, `ActionsDisabled` holds for it; with no documents `ShowsEmptyMessage` holds) |
| DocumentList.DocumentTable.HandleDelete | capconnect/components/ui/document-list.tsx:100-131 | an unconfirmed delete does nothing; after a failed row delete nothing is removed; after a successful one the object named by the URL's last "/" segment is removed (none when that segment is empty) and the page refreshed; the row stops loading |
| DocumentList.DocumentTable.HandleDeleteByStoredPath | capconnect/components/ui/document-list.tsx:117-121 | the corrected delete: the same steps, removing the object at the document's path inside the bucket, the path the upload stored it under |
| FounderDocuments.Types | capconnect/app/dashboard/founder/documents/page.tsx:29-33 | the documents' types, in order |
| FounderDocuments.OfType | capconnect/app/dashboard/founder/documents/page.tsx:29-33 | a bucket holds as many documents as have that type |
| FounderDocuments.TypesInOrder | capconnect/app/dashboard/founder/documents/page.tsx:29-33 | the bucket keys have no duplicates |
| FounderDocuments.OfTypeMembers | capconnect/app/dashboard/founder/documents/page.tsx:29-33 | a bucket holds exactly the documents of its type |
| FounderDocuments.OfTypeAbsent | capconnect/app/dashboard/founder/documents/page.tsx:29-33 | a type that is no key has no documents |
| FounderDocuments.TypesInOrderMembers | capconnect/app/dashboard/founder/documents/page.tsx:29-33 | the keys are exactly the types that occur |
| FounderDocuments.GroupsFor | capconnect/app/dashboard/founder/documents/page.tsx:29-33 | one bucket per key, in key order, holding that key's documents |
| FounderDocuments.KeyIndex | capconnect/app/dashboard/founder/documents/page.tsx:30 | the position of a key in the accumulator, or absent exactly when no bucket has it |
| FounderDocuments.OfTypeSnoc | capconnect/app/dashboard/founder/documents/page.tsx:31 | one more document is appended to its own bucket and to no other |
| FounderDocuments.TypesInOrderSnoc | capconnect/app/dashboard/founder/documents/page.tsx:30 | a new type becomes the last key; a known type adds none |
| FounderDocuments.PushExisting | capconnect/app/dashboard/founder/documents/page.tsx:31 | a document of a known type is pushed onto that bucket |
| FounderDocuments.AddNew | capconnect/app/dashboard/founder/documents/page.tsx:30-31 | a document of a new type opens a bucket holding only it |
| FounderDocuments.NotAKey | capconnect/app/dashboard/founder/documents/page.tsx:30 | a type no bucket has is not a key |
| FounderDocuments.GroupByType | capconnect/app/dashboard/founder/documents/page.tsx:29-33 | the reduce loop yields exactly the buckets of the documents, and none for a missing list |
| FounderDocuments.SumSizesGroupsFor | capconnect/app/dashboard/founder/documents/page.tsx:29-33 | bucket sizes (`SumSizes`) add up to the type counts of the keys |
| FounderDocuments.GroupedMembers | capconnect/app/dashboard/founder/documents/page.tsx:29-33 | no bucket of `Grouped` (the reduce's result) is empty, and each holds exactly the documents of its type |
| FounderDocuments.GroupedTotal | capconnect/app/dashboard/founder/documents/page.tsx:29-33 | bucket sizes sum to the number of documents (the buckets partition them) |
| FounderDocuments.GroupedEmpty | capconnect/app/dashboard/founder/documents/page.tsx:81-100 | there are no buckets, and so the empty state shows, exactly when there are no documents |
| FounderDocuments.CategoryCount | capconnect/app/dashboard/founder/documents/page.tsx:56-72 | a card's non-zero count is the size of its type's bucket |
| FounderDocuments.CategoryCountIsTypeCount | capconnect/app/dashboard/founder/documents/page.tsx:56-72 | a card shows the number of documents of its type, 0 when absent |
| FounderDocuments.CardsTotalBounded | capconnect/app/dashboard/founder/documents/page.tsx:56-72 | the five cards together count at most the documents |
| FounderDocuments.CapTableUncounted | capconnect/app/dashboard/founder/documents/page.tsx:56-72 | with a "cap_table" document the cards count strictly fewer than the documents |
| FounderDocuments.AccessLevels | capconnect/app/dashboard/founder/documents/page.tsx:112-124 | the documents' access levels, in order |
| FounderDocuments.AccessCount | capconnect/app/dashboard/founder/documents/page.tsx:112-124 | the number of documents at a level, at most the document count, 0 for a missing list |
| FounderDocuments.AccessTotalsBounded | capconnect/app/dashboard/founder/documents/page.tsx:112-124 | public, investors and admins together count at most the documents |
| CapTableChart.ColorsDistinct | capconnect/components/ui/cap-table-chart.tsx:16 | the six palette colours are pairwise different |
| CapTableChart.WithShares | capconnect/components/ui/cap-table-chart.tsx:20 | every kept class has outstanding shares (`Outstanding`, a missing count read as 0) above 0, and no more classes are kept than given |
| CapTableChart.WithSharesMembers | capconnect/components/ui/cap-table-chart.tsx:20 | a class is kept exactly when it is given and has outstanding shares above 0 |
| CapTableChart.WithSharesAppend | capconnect/components/ui/cap-table-chart.tsx:20 | the filter distributes over concatenation, so the kept classes stay in order |
| CapTableChart.ChartData | capconnect/components/ui/cap-table-chart.tsx:19-26 | one slice per kept class, with its name, outstanding shares, type and colour `COLORS[k mod 6]` |
| CapTableChart.SlicesPositive | capconnect/components/ui/cap-table-chart.tsx:19-26 | every slice value is positive |
| CapTableChart.NearbySlicesDiffer | capconnect/components/ui/cap-table-chart.tsx:24 | slices fewer than six apart get different colours |
| CapTableChart.NoDataIff | capconnect/components/ui/cap-table-chart.tsx:28-34 | "No data" shows exactly when no class has positive shares (as the chart test expects) |
| CapTableChart.SliceTotalIsKeptTotal | capconnect/components/ui/cap-table-chart.tsx:19-26 | the slices' values (`SliceTotal`) add up to the kept classes' shares |
| CapTableChart.SliceTotalOfPrefix | capconnect/components/ui/cap-table-chart.tsx:19-26 | the same, slice by slice over each prefix |
| CapTableChart.KeptTotal | capconnect/components/ui/cap-table-chart.tsx:20 | with no negative counts, dropping zero classes keeps the total |
| CapTableChart.OutstandingTotalAppend | capconnect/components/ui/cap-table-chart.tsx:19-26 | the share total (`OutstandingTotal`) distributes over concatenation |
| CapTableChart.FixtureKept | capconnect/__tests__/components/CapTableChart.test.tsx:62-95 | of the chart test's classes plus a zero-share class, the three with shares are kept, in order |
| CapTableChart.FixtureSlices | capconnect/__tests__/components/CapTableChart.test.tsx:62-95 | those classes give three slices with their names, share counts, types and the first three colours |
| FounderCapTable.TotalShares | capconnect/app/dashboard/founder/cap-table/page.tsx:41 | the sum of outstanding shares, 0 for a missing list |
| FounderCapTable.PercentOfTotal | capconnect/app/dashboard/founder/cap-table/page.tsx:165-168 | outstanding / total × 100 for a positive total, 0 otherwise |
| FounderCapTable.PercentSumScaled | capconnect/app/dashboard/founder/cap-table/page.tsx:165-168 | the percentages (`PercentSum`) add up to the classes' shares over the total, × 100 |
| FounderCapTable.PercentagesSumTo100 | capconnect/app/dashboard/founder/cap-table/page.tsx:41 | with a positive total the class percentages sum to exactly 100 |
| FounderCapTable.TermBounded | capconnect/app/dashboard/founder/cap-table/page.tsx:41 | with no negative counts, one class holds at most the total |
| FounderCapTable.NonNegativeTotal | capconnect/app/dashboard/founder/cap-table/page.tsx:41 | with no negative counts, the total is not negative |
| FounderCapTable.PercentInRange | capconnect/app/dashboard/founder/cap-table/page.tsx:165-168 | with no negative counts, each percentage lies in [0, 100] |
| FounderCapTable.ChartTotalMatchesSummary | capconnect/app/dashboard/founder/cap-table/page.tsx:76-106 | the chart's slices add up to the summary's total shares |
| FounderCapTable.OrZeroText | capconnect/app/dashboard/founder/cap-table/page.tsx:221 | a missing or zero value shows "0.00", any other its number |
| FounderCapTable.SummaryOf | capconnect/app/dashboard/founder/cap-table/page.tsx:96-106 | the summary's total shares and class and stakeholder counts, 0 for missing lists (the chart shows when `ShowsChart`: some class is listed) |
| FounderCapTable.StakeholderRowOf | capconnect/app/dashboard/founder/cap-table/page.tsx:218-224 | a stakeholder row shows the email or "-", the equity or "0.00", and the security count or 0 |
| SpvManagement.CeilDiv | capconnect/components/ui/spv-management.tsx:33 | `Math.ceil(a / d)`: the least q with a <= q·d |
| SpvManagement.DaysLeft | capconnect/components/ui/spv-management.tsx:29-35 | whole days to expiry, rounded up; at most 0 exactly once the expiry has passed |
| SpvManagement.LastDayIsOne | capconnect/components/ui/spv-management.tsx:29-35 | an expiry within the next 24 hours shows 1 day |
| SpvManagement.CalculateProgress | capconnect/components/ui/spv-management.tsx:43-45 | for a non-zero target: 100 when raised / target × 100 is at least 99.5, otherwise that quotient rounded half up; never above 100; 100 once the target is met; never negative for a non-negative amount; a zero target gives 100, NaN or minus infinity |
| SpvManagement.ProgressMonotone | capconnect/components/ui/spv-management.tsx:43-45 | with a positive target, raising more never shrinks the bar |
| SpvManagement.ProgressExample | capconnect/__tests__/components/SpvManagement.test.tsx:9-13 | the test's first SPV, 350,000 raised of a 500,000 target, shows 70 |
| SpvManagement.StatusBadge | capconnect/components/ui/spv-management.tsx:74-83 | "Open for Investment" in green exactly for open, "Fully Funded" in blue exactly for filled, "Closed" in gray exactly for closed, "Pending" in yellow exactly for any other status |
| SpvManagement.Toggled | capconnect/components/ui/spv-management.tsx:38-40 | toggling the expanded id collapses it; toggling any other expands exactly that one |
| SpvManagement.ToggleTwice | capconnect/components/ui/spv-management.tsx:38-40 | toggling the same row twice restores that row's state and collapses any other |
| SpvManagement.Actions | capconnect/components/ui/spv-management.tsx:133-146 | "Join SPV" exactly for the expanded open SPV, "View Details" for every expanded one (as the SPV test expects) |
| SpvManagement.SpvList.constructor | capconnect/components/ui/spv-management.tsx:26 | nothing is expanded at first (the empty state shows when `ShowsEmptyState`: no SPV) |
| SpvManagement.SpvList.ExpandedRows | capconnect/components/ui/spv-management.tsx:93 | the rows shown expanded are those with the expanded id; all of them share one id |
| SpvManagement.SpvList.ToggleExpand | capconnect/components/ui/spv-management.tsx:38-40 | the expanded id becomes `Toggled` of the old one |
| SpvCard.CommitmentProgress | capconnect/components/ui/spv-card.tsx:32-34 | committed / target × 100 for a non-zero target, 0 otherwise |
| SpvCard.ProgressReachesFull | capconnect/components/ui/spv-card.tsx:32-34 | with a positive target, progress reaches 100 exactly when the commitment reaches the target |
| SpvCard.BarWidth | capconnect/components/ui/spv-card.tsx:101 | at most 100 and at most the progress: the progress itself or 100 |
| SpvCard.TotalMembers | capconnect/components/ui/spv-card.tsx:36 | the member-list length, 0 when missing |
| SpvCard.CommittedCount | capconnect/components/ui/spv-card.tsx:37 | at most the members; 0 exactly when none is committed; all exactly when all are |
| SpvCard.CommittedCountAppend | capconnect/components/ui/spv-card.tsx:37 | the count of a joined list is the sum of the counts of its parts, so each committed member counts once |
| SpvCard.CommittedMembers | capconnect/components/ui/spv-card.tsx:37 | the committed count never exceeds the total |
| SpvCard.AverageCommitment | capconnect/components/ui/spv-card.tsx:124 | "0" exactly without members; otherwise the rounded commitment per member, over all members |
| SpvCard.EvenSplitAverage | capconnect/components/ui/spv-card.tsx:124 | an amount that splits evenly averages to the share |
| SpvCard.StatusColor | capconnect/components/ui/spv-card.tsx:39-50 | green exactly for active, yellow exactly for draft, gray exactly for any other status: "closed" and unknown statuses share it |
| SpvCard.MemberStatusColor | capconnect/components/ui/spv-card.tsx:52-63 | green exactly for committed, yellow exactly for pending, red exactly for withdrawn, gray exactly for any other status |
| SpvCard.MembersViewOf | capconnect/components/ui/spv-card.tsx:153-183 | hidden when off; when shown, the list if non-empty, otherwise "No members" |
| SpvCard.MembersPanel.constructor | capconnect/components/ui/spv-card.tsx:30 | the members are hidden at first |
| SpvCard.MembersPanel.ButtonLabel | capconnect/components/ui/spv-card.tsx:142 | "Hide Members" while shown, otherwise "View Members (n)" with the member count |
| SpvCard.MembersPanel.View | capconnect/components/ui/spv-card.tsx:153-183 | what the panel shows for its current toggle |
| SpvCard.MembersPanel.Toggle | capconnect/components/ui/spv-card.tsx:139 | the toggle flips, and with it whether the members area is hidden |
| FounderSpvs.TotalSpvs | capconnect/app/dashboard/founder/spvs/page.tsx:37 | the list length, 0 when missing |
| FounderSpvs.ActiveCount | capconnect/app/dashboard/founder/spvs/page.tsx:38 | at most the SPVs; 0 exactly when none is active; all exactly when all are |
| FounderSpvs.ActiveCountAppend | capconnect/app/dashboard/founder/spvs/page.tsx:38 | the count of a joined list is the sum of the counts of its parts, so each active SPV counts once |
| FounderSpvs.ActiveSpvs | capconnect/app/dashboard/founder/spvs/page.tsx:38 | the active count never exceeds the total |
| FounderSpvs.TotalCommitted | capconnect/app/dashboard/founder/spvs/page.tsx:39 | the committed amounts added up, 0 when missing |
| FounderSpvs.TotalMembers | capconnect/app/dashboard/founder/spvs/page.tsx:40 | the cards' member counts added up, 0 when missing |
| FounderSpvs.SumsAppend | capconnect/app/dashboard/founder/spvs/page.tsx:39-40 | both sums (`CommittedSum`, `MembersSum`) distribute over concatenation |
| FounderSpvs.CardMembersBounded | capconnect/app/dashboard/founder/spvs/page.tsx:40 | a card's committed members are within its members, which are within the page total |
| FounderSpvs.CommittedBounded | capconnect/app/dashboard/founder/spvs/page.tsx:39 | with no negative amounts, one SPV's commitment is within the total |
| FounderSpvs.CommittedNonNegative | capconnect/app/dashboard/founder/spvs/page.tsx:39 | with no negative amounts, the total is not negative |
| FounderSpvs.PageOverview | capconnect/app/dashboard/founder/spvs/page.tsx:18-40 | no overview exactly without a company; otherwise the four figures, active at most total, all 0 without SPVs |
| FounderSpvs.ShowsEmptyState | capconnect/app/dashboard/founder/spvs/page.tsx:119-126 | the empty state shows exactly when there is no SPV |
| CompanyFilters.Get | capconnect/components/ui/company-filters.tsx:76 | the first value of a key; absent exactly when no pair has the key |
| CompanyFilters.Without | capconnect/components/ui/company-filters.tsx:25 | exactly the pairs of other keys remain |
| CompanyFilters.WithoutAppend | capconnect/components/ui/company-filters.tsx:25 | a delete acts on each part of a list separately, so the remaining pairs keep their order |
| CompanyFilters.SetPair | capconnect/components/ui/company-filters.tsx:27 | the pair with the value is present, and pairs of other keys are kept exactly |
| CompanyFilters.SetPairNew | capconnect/components/ui/company-filters.tsx:27 | a key not yet present gets its pair appended at the end |
| CompanyFilters.SetPairAt | capconnect/components/ui/company-filters.tsx:27 | the key's first pair takes the value in place, its later pairs are dropped, and everything else keeps its order |
| CompanyFilters.WithoutGet | capconnect/components/ui/company-filters.tsx:25 | after delete the key reads absent and every other key reads as before |
| CompanyFilters.SetPairGet | capconnect/components/ui/company-filters.tsx:27 | after set the key reads the value and every other key reads as before |
| CompanyFilters.SetPairOnce | capconnect/components/ui/company-filters.tsx:27 | after set the key occurs exactly once |
| CompanyFilters.WithoutCount | capconnect/components/ui/company-filters.tsx:25 | after delete the key does not occur |
| CompanyFilters.WithoutIdempotent | capconnect/components/ui/company-filters.tsx:25 | deleting twice is deleting once |
| CompanyFilters.WithoutAbsent | capconnect/components/ui/company-filters.tsx:25 | deleting an absent key changes nothing |
| CompanyFilters.SetPairIdempotent | capconnect/components/ui/company-filters.tsx:27 | setting the same value twice is setting it once |
| CompanyFilters.SearchParams.constructor | capconnect/components/ui/company-filters.tsx:22 | the new parameters are a copy of the current ones |
| CompanyFilters.SearchParams.Delete | capconnect/components/ui/company-filters.tsx:25 | the pairs of that key go, and the key reads absent |
| CompanyFilters.SearchParams.Set | capconnect/components/ui/company-filters.tsx:27 | the key reads the new value and every other key reads as before |
| CompanyFilters.ShowsActiveFilters | capconnect/components/ui/company-filters.tsx:111 | the panel shows exactly when industry, stage or search is set and non-empty (`IsSet`) |
| CompanyFilters.SelectValue | capconnect/components/ui/company-filters.tsx:76 | "all" when the filter is unset or empty; the value otherwise; never empty |
| CompanyFilters.OptionText | capconnect/components/ui/company-filters.tsx:83 | without a "-" the text is the value; otherwise exactly the first "-" becomes a space and the rest is kept |
| CompanyFilters.SelectShowsChoice | capconnect/components/ui/company-filters.tsx:21-30 | after choosing a value the select shows it; after "all" or "" it shows "all" |
| CompanyFilters.UpdatedGet | capconnect/components/ui/company-filters.tsx:21-30 | after `updateFilter` (`Updated`) the key reads the value, or absent for "all" and ""; every other key reads as before |
| CompanyFilters.FilterBar.constructor | capconnect/components/ui/company-filters.tsx:17-19 | the search box starts with the current search or empty, and nothing is pushed |
| CompanyFilters.FilterBar.SetSearch | capconnect/components/ui/company-filters.tsx:56 | the search box holds the typed text |
| CompanyFilters.FilterBar.UpdateFilter | capconnect/components/ui/company-filters.tsx:21-31 | pushes a fresh copy of the parameters with the key deleted for "all" or "", or set otherwise; every other key reads as before |
| CompanyFilters.FilterBar.HandleSearch | capconnect/components/ui/company-filters.tsx:33-36 | a search is `updateFilter("search", text)`, so an empty search clears the key |
| CompanyFilters.FilterBar.ClearFilters | capconnect/components/ui/company-filters.tsx:38-41 | the search box empties, and the bare browse path is pushed |
| CompanyCard.LatestMetrics | capconnect/components/ui/company-card.tsx:39 | the first metrics row, absent exactly when the list is missing or empty |
| CompanyCard.FundingProgress | capconnect/components/ui/company-card.tsx:40-42 | raised / target × 100 for a truthy target (`HasTarget`), 0 otherwise |
| CompanyCard.FixtureProgress | capconnect/__tests__/components/CompanyCard.test.tsx:36-41 | 100,000 of 500,000 is 20% |
| CompanyCard.ProgressMonotone | capconnect/components/ui/company-card.tsx:40-42 | with a positive target, progress grows with the amount raised and reaches 100 exactly at the target |
| CompanyCard.BarWidth | capconnect/components/ui/company-card.tsx:118 | at most 100, and the exact progress below that |
| CompanyCard.ProgressAreaAsWritten | capconnect/components/ui/company-card.tsx:109-122 | the bar exactly for a truthy target; a stray "0" exactly for a zero target |
| CompanyCard.ZeroTargetShowsStrayZero | capconnect/components/ui/company-card.tsx:109-122 | a zero target puts "0" on the card |
| CompanyCard.ProgressAreaOf | capconnect/components/ui/company-card.tsx:109-122 | never a stray "0"; the bar exactly for a truthy target, clamped, and as written in that case |
| CompanyCard.TargetLabel | capconnect/components/ui/company-card.tsx:102 | the "TBD" label (rendered "$TBD") exactly for a missing target; any number, 0 included, otherwise |
| CompanyCard.FounderLine | capconnect/components/ui/company-card.tsx:162 | the founder's name when non-empty; "Founder" when the name is absent or empty |
| CompanyCard.CommitmentFor | capconnect/components/ui/company-card.tsx:51-71 | the inserted commitment is "committed" for the company, amount and instrument, with the notice text |
| CompanyCard.InvestModal.constructor | capconnect/components/ui/company-card.tsx:33-36 | the modal is closed, idle and empty, with "SAFE" chosen |
| CompanyCard.InvestModal.Open | capconnect/components/ui/company-card.tsx:152 | "Invest" opens the modal |
| CompanyCard.InvestModal.Cancel | capconnect/components/ui/company-card.tsx:207 | "Cancel" closes it |
| CompanyCard.InvestModal.SetAmount | capconnect/components/ui/company-card.tsx:183 | the amount field holds the typed text |
| CompanyCard.InvestModal.SetInstrument | capconnect/components/ui/company-card.tsx:195 | the instrument select holds the choice |
| CompanyCard.InvestModal.SubmitDisabled | capconnect/components/ui/company-card.tsx:214 | submit is disabled exactly while loading or with an empty amount |
| CompanyCard.InvestModal.HandleInvestment | capconnect/components/ui/company-card.tsx:44-82 | the commitment is sent; success closes the modal and clears the amount, failure keeps both; loading ends false |
| CompanyCard.InvestModal.ClickSubmit | capconnect/components/ui/company-card.tsx:212-218 | nothing is sent exactly while disabled, and then nothing changes; otherwise the non-empty amount is committed, and success leaves the modal closed and empty |
| InvestorInvestments.Performance | capconnect/app/dashboard/investor/investments/page.tsx:150-152 | 0 when either valuation is 0; otherwise the change since entry in whole percent, rounded |
| InvestorInvestments.PerformanceSign | capconnect/app/dashboard/investor/investments/page.tsx:150-152 | with positive valuations the figure's sign follows the valuation's direction |
| InvestorInvestments.Format | capconnect/app/dashboard/investor/investments/page.tsx:133-155 | a row's performance, document count (0 when missing), valuations and amounts |
| InvestorInvestments.FormatAll | capconnect/app/dashboard/investor/investments/page.tsx:133-156 | one shown row per query row in order, none when missing (the table shows unless `ShowsEmptyState`: no row) |
| InvestorInvestments.TotalsAppend | capconnect/app/dashboard/investor/investments/page.tsx:158-162 | both totals (`TotalInvested`, `TotalCurrentValue`) distribute over concatenation |
| InvestorInvestments.OverallPerformance | capconnect/app/dashboard/investor/investments/page.tsx:163-165 | 0 unless something was invested; otherwise the portfolio's gain in whole percent, rounded |
| InvestorInvestments.OverallSign | capconnect/app/dashboard/investor/investments/page.tsx:163-165 | not negative once the holdings are worth what was put in; positive only when they are worth more |
| InvestorInvestments.RowCurrentValue | capconnect/app/dashboard/investor/investments/page.tsx:159-162 | a holding's value (`EquityValue`: its share of the current valuation), rounded to whole dollars |
| InvestorInvestments.Industries | capconnect/app/dashboard/investor/investments/page.tsx:188 | the investments' industries, in order |
| InvestorInvestments.IndustryCount | capconnect/app/dashboard/investor/investments/page.tsx:188 | the number of distinct industries: at most the investments, at least 1 when there is one |
| InvestorInvestments.OverallSignText | capconnect/app/dashboard/investor/investments/page.tsx:217 | "+" exactly when the overall figure is not negative |
| InvestorInvestments.OverallColor | capconnect/app/dashboard/investor/investments/page.tsx:216 | green exactly when the overall figure is not negative, red otherwise |
| InvestorInvestments.RowBadgeColor | capconnect/app/dashboard/investor/investments/page.tsx:299-302 | green above 0, red below, gray at 0 |
| InvestorInvestments.RowSignText | capconnect/app/dashboard/investor/investments/page.tsx:304 | "+" exactly above 0 |
| InvestorInvestments.ZeroSignsDiffer | capconnect/app/dashboard/investor/investments/page.tsx:217 | a zero figure reads "+0%" overall but "0%" in a row |
| InvestorInvestments.DemoPerformancesAgree | capconnect/app/dashboard/investor/investments/page.tsx:18-99 | the demo's stored figures (50, 25, 33, 25) are what the formula gives for its valuations |
| InvestorInvestments.DemoSummary | capconnect/app/dashboard/investor/investments/page.tsx:18-99 | the demo's totals are 900,000 invested and 1,201,900 now, +34% overall |
| InvestorDashboard.Take | capconnect/app/dashboard/investor/page.tsx:75 | the first n rows, or all when fewer |
| InvestorDashboard.Recent | capconnect/app/dashboard/investor/page.tsx:75 | at most five rows, a prefix of all of them, all of them when there are at most five |
| InvestorDashboard.CommittedCount | capconnect/app/dashboard/investor/page.tsx:115 | at most the rows; 0 exactly when no row is committed; all the rows exactly when every row is committed |
| InvestorDashboard.CommittedCountAppend | capconnect/app/dashboard/investor/page.tsx:115 | the count adds up over the parts of a list: each committed row counts once, wherever it is |
| InvestorDashboard.LiveFigures | capconnect/app/dashboard/investor/page.tsx:60-116 | total over all committed rows; active and portfolio counts over the recent five, active at most portfolio at most 5; SPVs from the memberships (the list shows unless `ShowsEmptyState`: none fetched) |
| InvestorDashboard.CommittedTotalAppend | capconnect/app/dashboard/investor/page.tsx:86 | the committed total (`CommittedTotal`) distributes over concatenation |
| InvestorDashboard.CommittedTotalNonNegative | capconnect/app/dashboard/investor/page.tsx:86 | with no negative amounts the total is not negative |
| InvestorDashboard.RecentCommittedWithinTotal | capconnect/app/dashboard/investor/page.tsx:75-86 | the recent rows' committed amounts are within "Total Invested" |
| InvestorDashboard.PortfolioCountCapped | capconnect/app/dashboard/investor/page.tsx:196 | with more than five investments "Portfolio Companies" shows 5 |
| InvestorDashboard.DemoTotalAgrees | capconnect/app/dashboard/investor/page.tsx:18-36 | the demo's fixed 75,000 is what the live formula gives for its rows |
| InvestorDashboard.StatusColor | capconnect/app/dashboard/investor/page.tsx:233-236 | green exactly for committed, yellow exactly for in_discussion, gray otherwise |
| InvestorDashboard.StatusLabel | capconnect/app/dashboard/investor/page.tsx:238 | without a "_" the text is the status; otherwise exactly the first "_" becomes a space and the rest is kept |
| InvestorDashboard.CompanyName | capconnect/app/dashboard/investor/page.tsx:223 | the company's name when non-empty; "Unknown Company" when the name is absent or empty |
| FounderAnalytics.ViewSumAppend | capconnect/app/dashboard/founder/analytics/page.tsx:126 | the view sum (`ViewSum`) distributes over concatenation |
| FounderAnalytics.ViewSumBounds | capconnect/app/dashboard/founder/analytics/page.tsx:126 | with no negative counts, a day's count is within the total |
| FounderAnalytics.ViewSumNonNegative | capconnect/app/dashboard/founder/analytics/page.tsx:126 | with no negative counts the total is not negative |
| FounderAnalytics.Scores | capconnect/app/dashboard/founder/analytics/page.tsx:147 | the engagement scores, in order |
| FounderAnalytics.AverageScore | capconnect/app/dashboard/founder/analytics/page.tsx:146-148 | 0 for an empty list; otherwise the mean score, rounded |
| FounderAnalytics.AverageScoreInRange | capconnect/app/dashboard/founder/analytics/page.tsx:146-148 | when every score lies in a range, so does the average |
| FounderAnalytics.AverageOfEqualScores | capconnect/app/dashboard/founder/analytics/page.tsx:146-148 | equal scores average to that score |
| FounderAnalytics.EngagementOf | capconnect/app/dashboard/founder/analytics/page.tsx:88-92 | one row per result in order: name from the user's full name, score copied, actions from the action count |
| FounderAnalytics.FounderMetrics | capconnect/app/dashboard/founder/analytics/page.tsx:85-100 | every list empty without a company; the fetched lists otherwise |
| FounderAnalytics.FounderFigures | capconnect/app/dashboard/founder/analytics/page.tsx:126-158 | profile and document views are view sums, the average the rounded mean, active investors the row count (`ActionSum` adds the actions for the investor page) |
| FounderAnalytics.NoCompanyFigures | capconnect/app/dashboard/founder/analytics/page.tsx:94-100 | without a company every figure is 0 |
| FounderAnalytics.DemoFigures | capconnect/app/dashboard/founder/analytics/page.tsx:18-44 | the demo shows 150 views, 92 document views, 82% and 5 investors |
| InvestorAnalytics.EngagementOf | capconnect/app/dashboard/investor/analytics/page.tsx:87-91 | one row per result in order: name copied, score from the engagement score, actions from the interaction count |
| InvestorAnalytics.InvestorMetrics | capconnect/app/dashboard/investor/analytics/page.tsx:56-99 | queries are made exactly when there is an investment; otherwise every list is empty |
| InvestorAnalytics.InvestorFigures | capconnect/app/dashboard/investor/analytics/page.tsx:125-157 | companies is the row count, reviews a view sum, the average the rounded mean, interactions the action sum |
| InvestorAnalytics.EmptyPortfolioFigures | capconnect/app/dashboard/investor/analytics/page.tsx:56-59 | without investments every figure is 0 |
| InvestorAnalytics.HealthColor | capconnect/app/dashboard/investor/analytics/page.tsx:228-231 | green exactly from 80, yellow exactly in [60, 80), red exactly below 60 |
| InvestorAnalytics.HealthColorMonotone | capconnect/app/dashboard/investor/analytics/page.tsx:228-231 | a higher score never gets a worse colour |
| InvestorAnalytics.DemoFigures | capconnect/app/dashboard/investor/analytics/page.tsx:18-44 | the demo shows 5 companies, 31 reviews, 82% and 90 interactions, with three green and two yellow dots |

## Left out

- All database, storage and auth calls are left out, and so are their error branches, which only log. Fetched rows are inputs. Query ordering and limits are taken as given by the input order.
- Real-mode notification updates are modelled as if the backend call succeeded.
- The realtime subscription and its cleanup are left out; only their effect, the prepend, is modelled.
- Rendering, CSS and the recharts charts (including `analytics-dashboard.tsx`) are left out, except for the visible decisions in the table above.
- Locale and decimal formatting is left out: `toLocaleString`, `toFixed`, `toLocaleDateString` and `toLocaleTimeString`. Figures are modelled as numbers, not as formatted strings.
- Date parsing is left out: timestamps are epoch milliseconds and "now" is a parameter.
- `Math.random()` in the analytics health table is left out, because it is non-deterministic.
- IEEE floating point is left out: money and percentages are exact reals. The file-size unit comes from integer powers of 1024, not from `Math.log`.
- Strings are sequences of characters, not UTF-16 code units.
- Emoji icons are modelled as an enumeration, not as their encoded text. `document-list.tsx` stores its emoji mis-encoded.
- URL parameters are an ordered list of pairs. Percent-encoding, `toString()` and parsing are left out.
- `Number(...)` of a non-numeric value is left out: amounts are already reals.
- Null valuations and missing share counts are 0 (same truthiness, same arithmetic).
- DocumentUpload.Chunks: requires a positive chunk size. The source loops forever on 0, and its only caller passes 1000.
- CompanyCard.InvestModal.HandleInvestment: the amount is kept as the typed text; the `parseFloat` of the insert is left out.
- The demo-mode banners and the founder SPV page's static explanatory text are left out.
- Pages that only query and route are left out: the auth pages, company and SPV creation, the founder deal-room and overview pages, investor browse and SPV pages, navigation and layout.

## Findings

| source | as written | input that shows it | evidently intended | confidence | as-written member | corrected member |
|---|---|---|---|---|---|---|
| capconnect/components/ui/document-list.tsx:117-121 | delete removes the object named by the URL's last "/" segment | a document uploaded for company "c1" at time 1700000000000 as "deck.pdf" is stored as "c1/1700000000000.pdf"; delete asks to remove "1700000000000.pdf" | remove the stored object's full path ("c1/1700000000000.pdf"), the URL minus the bucket prefix | high, not executed | DocumentList.DeleteMissesStoredObject | DocumentList.StoredObjectPathRoundTrip |
| capconnect/components/ui/company-card.tsx:109-122 | `{company.target_raise && (...)}` | target_raise 0: the expression is the number 0, which React renders as the text "0" | show the progress bar for a non-zero target and nothing otherwise | medium, not executed | CompanyCard.ZeroTargetShowsStrayZero | CompanyCard.ProgressAreaOf |
