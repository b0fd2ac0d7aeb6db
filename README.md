# Analytics and lead store of the Bex Sites website, in Dafny

This project models `analytics.ts`, the browser-side store behind the Bex Sites
promotional site. The store keeps one document in the browser's local storage.
The document holds:

- the logs of page visits (old visits are pruned by `cleanOldData`),
  briefing-form leads (only their status changes) and satisfaction ratings;
  new records are only ever appended at the end;
- a page → view-count tally;
- three cached scalars: total visitors, today's visitors and the conversion rate.

The tracking, status-update and clean-up operations load the document, change
it in memory and write it back whole. `getAnalyticsData` and the two report
generators only load it and never save.

The model is layered like the code:

- `Records`: the record shapes and the persisted document. `LoadData` is the
  `loadData` fallback: a missing or unparsable slot yields the empty document.
- `Metrics`: the filters, counts, sums, `find` and `slice(-5)` the code uses.
  Examples are `DatePart` (`split('T')[0]`), `CountOn`, `CountStatus`,
  `Average`, `LastFive` and `FirstWithId`.
- `Tracking`: what each mutating operation does to the loaded document, as a
  function from the old document to the saved one. `CachesAgree` relates the
  three cached scalars to the logs.
- `Store`: the imperative form. `AnalyticsData` is the parsed in-memory object
  whose fields the operations push onto and assign. `AnalyticsStore` is the
  storage slot. Its methods `TrackVisit`, `TrackFormSubmission`,
  `TrackSatisfaction`, `UpdateSubmissionStatus` and `CleanOldData` load a fresh
  object, mutate its fields as the code does and save it. Each is proved equal
  to its `Tracking` function.
- `Reports`: the figures and lists of the WhatsApp and e-mail reports.
- `History`: any sequence of calls replayed from an empty slot, with the
  properties that hold after every history.

The clock, the id generator and the browser are inputs:

- `trackVisit` reads the clock twice (analytics.ts:90 and 94). So `TrackVisit`
  takes `today` (the date part) and `timestamp` separately.
- Ids are parameters.
- `cleanOldData` takes the cutoff instant and the host's date parser
  (`instantOf`). An unparsable timestamp compares false and is dropped.

Behaviour of the code that the model keeps and the proofs make visible:

- The `totalVisitors > 0` guard in `trackVisit` always holds after the push.
- `trackFormSubmission` divides by the cached `totalVisitors`, not by the
  length of the visitor log.
- `cleanOldData` does not recompute the cached scalars.
  `Tracking.PruneLeavesCachesStale` exhibits a document whose visitor log is
  empty after pruning while `totalVisitors` is 1. A lead tracked next gets a
  100% conversion rate.
- The reports print the cached `todayVisitors`. That count is from the day of
  the last visit (`Reports.ReportTodayIsCachedCount`).
- A status update for an unknown id saves nothing. An unreadable slot then
  stays unreadable, while the tracking operations and `cleanOldData`
  overwrite it with a document.

Two facts about the cached scalars that the code does not keep in general:

- `cleanOldData` does not recompute `totalVisitors`, so after a clean-up it
  can exceed the length of the visitor log.
- `trackFormSubmission` computes the conversion rate as leads over the cached
  `totalVisitors`, not over the visitor log, so after a clean-up the rate is
  no longer leads over logged visits.

## Model

| member | source | states |
|---|---|---|
| `Records.Empty` | analytics.ts:67-75 | the default document has empty logs, no page views and all three scalars zero |
| `Records.LoadData` | analytics.ts:58-76 | loading never fails: a parsed document is returned as stored, and an absent or unparsable slot gives the empty default |
| `Records.NewVisitor` | analytics.ts:92-99 | a new visit carries the given id, time, page, user agent and screen size, and a non-empty referrer is kept while an empty one becomes "direct" |
| `Records.NewSubmission` | analytics.ts:122-127 | a new lead carries the caller's seven fields, the fresh id and time, and status pending |
| `Records.NewRating` | analytics.ts:145-149 | a new rating carries the caller's fields, the fresh id and time |
| `Metrics.DatePart` | analytics.ts:104 | the date part is a prefix of the timestamp, holds no 'T', and stops at the first 'T' or the end |
| `Metrics.DatePartUnique` | analytics.ts:104 | those three facts determine the date part uniquely |
| `Metrics.CountOn` | analytics.ts:103-105 | the number of visits on a day is at most the number of visits |
| `Metrics.CountOnAppend` | analytics.ts:103-105 | appending a visit raises the day's count by one exactly when the visit's date part is that day |
| `Metrics.CountOnExtremes` | analytics.ts:103-105 | a day with no visit counts 0, and a day that every visit falls on counts them all |
| `Metrics.SubmissionsOn` | analytics.ts:177-179 | today's leads are exactly the stored leads whose date part is today |
| `Metrics.SubmissionsOnAppend` | analytics.ts:177-179 | the filter keeps append order: a new lead joins the end of the day's list exactly when it is dated that day |
| `Metrics.CountStatus` | analytics.ts:243-245 | a per-status count never exceeds the number of leads |
| `Metrics.CountStatusAppend` | analytics.ts:196 | appending a lead raises exactly its own status count by one |
| `Metrics.StatusCountsPartition` | analytics.ts:242-245 | the pending, contacted and converted counts add up to the number of leads |
| `Metrics.StatusCountAfterUpdate` | analytics.ts:165-167 | overwriting one lead's status moves it from its old status count to the new one, and no other count changes |
| `Metrics.CountRecommending` | analytics.ts:201 | the recommend count never exceeds the number of ratings |
| `Metrics.CountRecommendingAppend` | analytics.ts:201 | a new rating raises the recommend count by one exactly when its rater would recommend |
| `Metrics.SumRatings` | analytics.ts:182 | with 1-to-5 star ratings the sum lies between the count and five times the count |
| `Metrics.SumRatingsAppend` | analytics.ts:182 | the sum runs left to right from 0: a new rating adds its stars to the sum of the earlier ones |
| `Metrics.Average` | analytics.ts:181-183 | the average is absent ('N/A') exactly when there are no ratings, and otherwise times the count gives the sum |
| `Metrics.AverageWithinStars` | analytics.ts:181-183 | with 1-to-5 star ratings the average lies between 1 and 5 |
| `Metrics.LastFive` | analytics.ts:258 | `slice(-5)` keeps min(5, n) items, and they are the tail of the log in append order |
| `Metrics.LastFiveAppend` | analytics.ts:258 | appending an item makes it the last shown item, and the oldest shown item drops out once five are shown |
| `Metrics.FirstWithId` | analytics.ts:165 | the find yields the first index with the id, or nothing exactly when no lead has the id |
| `Tracking.ViewCount` | analytics.ts:108 | a page with no entry in the tally counts 0, and a page with one counts its stored value |
| `Tracking.Rate` | analytics.ts:112 | the rate is non-negative, times the visitor count it gives 100 times the lead count, and it is at most 100 when leads do not outnumber visitors |
| `Tracking.EmptyCachesAgree` | analytics.ts:67-75 | the default document's caches agree with its logs on every day |
| `Tracking.AfterVisit` | analytics.ts:88-116 | a visit appends exactly one record and leaves leads and ratings alone; today's count becomes the old log's count for today, plus one when the visit is dated today, so a stale cached count is replaced rather than incremented; it adds one to the page's views (a missing page counts 0) and leaves every other page's count unchanged; all three caches agree with the logs afterwards, from any document |
| `Tracking.AfterSubmission` | analytics.ts:119-139 | a lead is appended and only leads and rate change; the rate is recomputed against the cached total only when it is positive, and otherwise keeps its value; agreeing caches stay agreeing |
| `Tracking.AfterRating` | analytics.ts:142-155 | a rating is appended, nothing else changes, and the caches keep agreeing |
| `Tracking.WithStatus` | analytics.ts:163-170 | an unknown id yields no document to save; otherwise only the first lead with the id gets the new status, the lead count and all other records and fields are unchanged, and agreeing caches stay agreeing |
| `Tracking.FirstWithIdIgnoresStatus` | analytics.ts:165-167 | after a status change the same lead is still the first with its id |
| `Tracking.StatusLastWriteWins` | analytics.ts:163-170 | two updates of one lead equal the second update alone; any status may follow any other, e.g. converted then pending leaves pending |
| `Tracking.StatusSameIsNoChange` | analytics.ts:163-170 | setting the status a lead already has saves the same document |
| `Tracking.StatusCountsAfterUpdate` | analytics.ts:163-170 | after an update the report's status counts move the lead from its old status to the new one |
| `Tracking.IsRecent` | analytics.ts:295 | a visit whose timestamp does not parse (Invalid Date) is never recent, and a parsed one is recent exactly when strictly after the cutoff |
| `Tracking.Kept` | analytics.ts:294-296 | a visit is kept exactly when its parsed time is strictly after the cutoff, and nothing is added |
| `Tracking.KeptAppend` | analytics.ts:294-296 | pruning a concatenation prunes each part and keeps their order |
| `Tracking.KeptIdempotent` | analytics.ts:294-296 | pruning again with the same cutoff removes nothing more |
| `Tracking.Pruned` | analytics.ts:289-299 | clean-up changes only the visitor log, which becomes the recent visits in their original order (`Kept`, so `KeptAppend` applies) |
| `Tracking.PruneLeavesCachesStale` | analytics.ts:289-299 | after pruning, the cached total can exceed the visitor log, and a following lead is then rated against the stale total |
| `Store.AnalyticsData.constructor` | analytics.ts:62 | the parsed object holds exactly the stored document's fields |
| `Store.AnalyticsStore.Load` | analytics.ts:58-76 | loading gives a fresh object holding the stored document or the empty default |
| `Store.AnalyticsStore.Save` | analytics.ts:79-85 | saving overwrites the slot with the whole document |
| `Store.AnalyticsStore.GetAnalyticsData` | analytics.ts:158-160 | the snapshot is the stored document, or the empty default for an absent or unreadable slot |
| `Store.AnalyticsStore.TrackVisit` | analytics.ts:88-116 | the in-place push, count updates, page increment and guarded rate update save exactly `AfterVisit` of the loaded document |
| `Store.AnalyticsStore.TrackFormSubmission` | analytics.ts:119-139 | it returns the new pending lead and saves exactly `AfterSubmission` of the loaded document |
| `Store.AnalyticsStore.TrackSatisfaction` | analytics.ts:142-155 | it returns the new rating and saves exactly `AfterRating` of the loaded document |
| `Store.AnalyticsStore.UpdateSubmissionStatus` | analytics.ts:163-170 | for an unknown id the slot is untouched (nothing is saved); otherwise the in-place status assignment saves exactly `WithStatus` of the loaded document |
| `Store.AnalyticsStore.CleanOldData` | analytics.ts:289-299 | replacing the visitor log by its filtered copy saves exactly `Pruned` of the loaded document |
| `Store.ThreeVisitsOneLead` | analytics.ts:88-139 | from an empty slot, three visits and one lead give three visitors and a rate of 100/3 |
| `Reports.LeadLine` | analytics.ts:205 | a lead line is the bullet "• ", the business name, " - " and the WhatsApp number, in that order and nothing else |
| `Reports.LeadLinesAppend` | analytics.ts:205 | one more lead of the day adds its line at the end of the block |
| `Reports.LeadLines` | analytics.ts:205 | one "• business - phone" line per lead of the day, in order |
| `Reports.WhatsApp` | analytics.ts:173-211 | the report shows the cached visitor figures as stored, the lead and rating counts, the pending count, the recommend count and the average sum/count ('N/A' exactly when nobody rated); "Hoje" is the number of today's leads, and the new-lead lines are those leads' lines in append order |
| `Reports.NewLeadsAreTodaysLeads` | analytics.ts:195-205 | "Hoje" equals the number of new-lead lines, and those lines are exactly the lines of the stored leads dated today |
| `Reports.NewLeadLineToday` | analytics.ts:195-205 | a lead tracked today adds its line at the end of the new-leads block and one to "Hoje"; a lead dated another day changes neither |
| `Reports.Stars` | analytics.ts:272 | the star string has as many characters as the rating, all of them the star glyph |
| `Reports.EntryOf` | analytics.ts:270-275 | a rating entry carries the rater's name, business and comment, a star string of exactly the rating's number of star glyphs, and "Sim" exactly for a recommending rater |
| `Reports.RatingEntries` | analytics.ts:270-275 | the latest-ratings list fails exactly when a rating is negative (repeat throws); otherwise it has one entry per rating, in order |
| `Reports.Email` | analytics.ts:222-279 | the report fails exactly when a negative rating is among the last five; otherwise it has the fixed subject with the date, the cached visitor figures as stored, the lead count, the pending, contacted and converted counts (`StatusCountsPartition`: they add up to the lead count), the rating count and the average sum/count ('N/A' exactly without ratings); the latest leads are the last min(5, n) in append order, and the latest ratings are the entries of the last five ratings, in order |
| `Reports.EmailReportWithStarRatings` | analytics.ts:270-272 | ratings from the 1-to-5 star form never make the e-mail report fail |
| `Reports.NewLeadInReports` | analytics.ts:126-129 | a tracked lead adds one pending lead to both reports and becomes the last of the e-mail report's latest leads |
| `Reports.ReportTodayIsCachedCount` | analytics.ts:190 | a report drawn the day after the last visit still shows that day's visitor count |
| `Reports.AverageOfThreeAndFive` | analytics.ts:181-183 | ratings of 3 and 5 average 4 |
| `History.PageViewsCountVisits` | analytics.ts:108 | after any history each page's view count equals the number of visits to it, clean-ups included |
| `History.ZeroVisitorsZeroRate` | analytics.ts:111-113 | after any history the cached total is non-negative, and a zero total comes with a zero conversion rate |
| `History.ApplyIds` | analytics.ts:129 | one call appends the new lead's id when it tracks a lead and otherwise leaves the stored leads' ids as they were; status updates and clean-ups never change them |
| `History.LeadsAreAppendOnly` | analytics.ts:129 | after any history the stored leads carry exactly the tracked leads' ids in tracking order |
| `History.RatingsAreAsGiven` | analytics.ts:151 | after any history the stored ratings are exactly the submitted ones, in order |
| `History.TotalsAgreeWithoutCleanup` | analytics.ts:101-113 | without clean-ups the visitor log and cached total equal the number of visits, and the rate is leads over visits times 100 (0 with no visits) |

## Left out

- Local storage and JSON: the slot is an `Option<Document>`, and reading and writing it are field reads and assignments. JSON parse and stringify are not modelled. A failed write (quota exceeded) is not modelled: `Save` always succeeds. The `console.error` logging is host I/O.
- A parsed document of the wrong shape is not modelled: the slot holds a well-shaped document or nothing, and a status outside the three values cannot be stored.
- `generateId` (`Date.now` and `Math.random`): ids are parameters. Nothing requires them to be unused; a status update only touches the first lead with the id.
- `new Date()`, `toISOString`, the date parsing in `cleanOldData` and the 30-calendar-day cutoff: the date part, the timestamps, the cutoff and the parser are parameters.
- `navigator.userAgent`, `document.referrer` and the window size: opaque string inputs. Only the `|| 'direct'` fallback is modelled.
- The optional `city` and `country` fields of a visit: nothing sets them.
- `conversionRate` and the average are exact rationals (`real`), not IEEE doubles.
- `toFixed(1)`, `toLocaleDateString` and `toLocaleString('pt-BR')`, the fixed report template text, and the per-lead dump in the e-mail report: the reports are modelled as the figures and lists they print.
- `sendWhatsAppReport`, `sendEmailReport` and the constants `ADMIN_PHONE`, `ADMIN_EMAIL` and `STORAGE_KEY`: they only open URLs or name the slot.
- Ratings are integers. A fractional rating, which `repeat` would round down, is not modelled.
- Page keys that JavaScript objects inherit (such as "toString") are not modelled. The tally is a plain map, and the site only tracks "home".
- Races between browser tabs (last save wins) are not modelled: every operation runs alone.
- The React components (dashboard, forms, modals, toasts, admin password gate) are not part of this model.
