# aggrep core, modelled in Dafny

aggrep is a news aggregator. Background jobs keep its database current.

- The **collector** reads RSS/Atom feeds when they are due. It stores new posts and adapts each feed's polling back-off.
- The **processor** extracts up to ten keywords per post.
- The **relater** links posts whose keyword sets overlap.
- The **analyzer** recomputes click-through rates.
- The **purger** deletes posts older than a week.

A JSON API lists posts (front page, by source, by category, similar, bookmarked) with the reader's exclusions applied. It also records views, saves and removes bookmarks, and manages each reader's excluded sources and categories. Its forms validate sign-up, login and password changes.

The model covers the decision rules of those jobs and routes over an in-memory database:

- the database is one `Models.Db` object with one field per table;
- time is integer minutes;
- a day is 1440 minutes.

Jobs that work step by step are methods with loops. Each is proved equal to a specification function over the tables it writes. The properties the jobs promise are then proved as lemmas about those functions:

- a lock protocol;
- due feeds and the back-off clamp;
- no duplicate links per source;
- every queued post processed once;
- symmetric similarity rows without self-pairs;
- purged exactly the expired posts;
- ctr updated exactly on due actions.

The API rules are functions with their own contracts:

- ordering;
- exclusion filters;
- idempotent bookmarking and its round trip with removal;
- disjoint included/excluded partitions;
- the status codes and messages of each route;
- per-form error messages.

An outside service becomes a parameter of the operation:

- feed fetching, HTML text extraction and `mktime` (the `Collect.Env` record);
- the spaCy tokenizer (`nlp`);
- the overlap score (`overlap`);
- the e-mail syntax check (`isEmail`);
- the current time (`now`);
- commit failures: an oracle `fails(k)` for the k-th commit.

Modules:

| module | file | models |
|---|---|---|
| `Common` | common.dfy | shared results, counting, filtering and batching |
| `Models` | models.py | tables, defaults, unique constraints, derived counts |
| `Locks` | base.py and the per-job `is_locked` | job locks |
| `PostParser` | collector/post_parser.py (and its copy in collect.py) | feed-entry normalisation |
| `Collect` | jobs/collect.py | the collection job |
| `Collector` | jobs/collector/collect.py | the cached collection variant |
| `Ctr` | jobs/ctr.py | the click-through-rate job |
| `Process` | jobs/processor/process.py | keyword extraction |
| `Relate` | jobs/relate.py | similarity scoring |
| `Relater` | jobs/relater/relate.py | the 0.75-threshold similarity variant |
| `Purge` | jobs/cleanser/purge.py | expired-post deletion |
| `Views` | api/views.py | the API routes |
| `Forms` | api/forms.py | the forms |

## Model

| member | source | states |
|---|---|---|
| Common.CountWhere | aggrep/models.py:174-176 | sequence helper, the `count(...).where(...)` of the count expressions: a count of matching rows never exceeds the table size |
| Common.CountWhereAppend | aggrep/models.py:169-176 | counting over a concatenation adds the two counts |
| Common.CountWherePositive | aggrep/jobs/processor/process.py:72-73 | sequence helper, used for the lock query's `.first()` being not `None`: a count is positive exactly when some row matches |
| Common.Filter | aggrep/jobs/processor/process.py:41 | sequence helper, used for the ASCII encoding and the punctuation `translate`: the kept rows are exactly the input rows satisfying the predicate |
| Common.FilterMultiset | aggrep/jobs/processor/process.py:41 | filtering keeps each satisfying row with its multiplicity and drops the rest |
| Common.RemoveAt | aggrep/jobs/processor/process.py:79 | sequence helper, the table after `prior_lock.delete()`: deleting one row shortens the table by one and keeps the other rows in order |
| Common.Batches | aggrep/jobs/processor/process.py:94-98 | every batch is non-empty and holds at most the batch size |
| Common.BatchesFrom | aggrep/jobs/cleanser/purge.py:20-38 | the batches from position `start` on are the slice `start:start + size` followed by the batches from its end on |
| Common.BatchesPartition | aggrep/jobs/cleanser/purge.py:18-23 | concatenating the batches gives back the queue, so every element falls in exactly one batch, in order |
| Models.Update | aggrep/models.py:29-33 | the given attributes take their new values and every other attribute is unchanged |
| Models.CreateCategory | aggrep/models.py:71-76 | creation fails exactly on a used id, slug or title; on success the new row is added and uniqueness is kept |
| Models.CreateSource | aggrep/models.py:87-92 | creation fails exactly on a used id or slug (titles may repeat); uniqueness is kept |
| Models.NewUser | aggrep/models.py:308-314 | a new user has no password, is not confirmed, is active and excludes nothing |
| Models.CreateUser | aggrep/models.py:311 | creation fails exactly on a used id or e-mail address; address uniqueness is kept |
| Models.CreateStatus | aggrep/models.py:103-109 | a new status has frequency 0; a second status for one feed fails; one status per feed is kept |
| Models.CreatePost | aggrep/models.py:142-151 | a post without a title or a link cannot be created; a created post is ingested now |
| Models.Enqueue | aggrep/models.py:217-221 | a queue accepts a post exactly when it is not already queued, so a queue holds no repeats |
| Models.FilterLength | aggrep/models.py:166-169 | the related list of a post is as long as the count of rows that point to it |
| Models.CountsAgree | aggrep/models.py:166-198 | click, bookmark and similar counts equal the lengths of the related lists |
| Models.NewPostCountsZero | aggrep/models.py:166-198 | a post no row refers to has all three counts zero |
| Models.ClickCountAppend | aggrep/models.py:166-174 | recording a click raises that post's click count by one and no other post's |
| Models.ToCollectionDict | aggrep/models.py:57-68 | the page dictionary holds one item per resource, converted in order, and echoes page, per-page and totals |
| Models.Paginate | aggrep/models.py:60 | the page's rows, at most `per_page` of them, with the page count and the row count |
| Models.PageCount | aggrep/models.py:65 | the page count, rounded up: the pages cover every row and the last page is not empty |
| Models.PaginateItems | aggrep/models.py:60 | a page holds the rows from `(page - 1) * per_page` on, in order, and a page within the page count is not empty |
| Models.CollectionOfPage | aggrep/models.py:58-68 | the listing body of a page: at most one page of items, exactly that page's rows rendered in order, and totals that cover every row |
| Models.Db.constructor | aggrep/models.py:71-314 | an empty database has every table empty |
| Locks.FirstLock | aggrep/jobs/base.py:17-19 | the first lock of a job is that job's lock with no earlier lock of the job before it |
| Locks.HasLockCount | aggrep/jobs/base.py:21-23 | a job is locked exactly when at least one of its locks exists |
| Locks.RemoveFirstCount | aggrep/jobs/base.py:40-43 | deleting the first lock of a job removes one lock of that job and none of any other job |
| Locks.AfterCheckCounts | aggrep/jobs/collect.py:84-95 | the lock check deletes at most one lock, only of its own job |
| Locks.AfterCheckReleases | aggrep/jobs/ctr.py:19-22 | with at most one lock, a check that finds it stale leaves the job unlocked |
| Locks.FreshLockKept | aggrep/jobs/collect.py:88-91 | a lock younger than the timeout is kept, and the job counts as locked and not expired |
| Locks.CheckLock | aggrep/jobs/collect.py:84-95 | `is_locked` is true exactly for a first lock at most `timeout` minutes old; a staler first lock is deleted |
| Locks.Lock.constructor | aggrep/jobs/base.py:11-14 | the lock helper remembers its job and timeout |
| Locks.Lock.IsLocked | aggrep/jobs/base.py:21-23 | locked exactly when some lock of the job exists, whatever its age |
| Locks.Lock.IsExpired | aggrep/jobs/base.py:25-34 | expired exactly when locked and the first lock is older than the timeout; never expired without a lock |
| Locks.Lock.Create | aggrep/jobs/base.py:36-38 | appends a lock stamped now; afterwards the job is locked, and a first lock is not expired |
| Locks.Lock.Remove | aggrep/jobs/base.py:40-43 | deletes the first lock of the job; the job is unlocked afterwards exactly when it had one lock |
| Locks.CreatedLockNotExpired | aggrep/jobs/base.py:36-38 | a lock just created makes the job locked and, if it is the only one, not expired |
| Locks.FreshIffNotExpired | aggrep/jobs/base.py:21-34 | the per-job "locked" check holds exactly when the lock exists and is not expired |
| PostParser.GetTitle | aggrep/jobs/collector/post_parser.py:61-66 | a missing or empty title fails; otherwise the title is returned unchanged |
| PostParser.GetLink | aggrep/jobs/collector/post_parser.py:54-59 | a missing or empty link fails; otherwise the link is returned unchanged |
| PostParser.GetDescription | aggrep/jobs/collector/post_parser.py:36-52 | the text of a non-empty description, else of a non-empty summary, else "" |
| PostParser.GetDatetime | aggrep/jobs/collector/post_parser.py:23-34 | a missing time fails; a malformed one fails with the same error kind; otherwise `mktime` of it |
| PostParser.Parse | aggrep/jobs/collector/post_parser.py:14-21 | parsing succeeds exactly with title, link and a well-formed time; the errors come in title, link, time order |
| PostParser.DescriptionNeverFails | aggrep/jobs/collector/post_parser.py:43-52 | the description and summary never decide whether parsing succeeds |
| PostParser.DescriptionBeforeSummary | aggrep/jobs/collector/post_parser.py:43-47 | when a description is present the summary is ignored |
| Collect.Pow2 | aggrep/jobs/collect.py:104 | a power of two is at least one |
| Collect.Backoff | aggrep/jobs/collect.py:104 | the back-off is 2^f minutes, a fraction of a minute for a negative f |
| Collect.DuePrefix | aggrep/jobs/collect.py:98-108 | among the first n statuses, exactly the due ones are listed, in increasing id order |
| Collect.GetDueFeeds | aggrep/jobs/collect.py:98-108 | a feed is due exactly when 2^frequency minutes have passed; due feeds come in status order |
| Collect.NextFrequency | aggrep/jobs/collect.py:199-209 | the exponent drops after new posts and rises otherwise, clamped to [1, 8] |
| Collect.Candidate | aggrep/jobs/collect.py:151-169 | an entry is kept exactly when it parses, its time converts, it lies in the window and its title and link fit 255 characters |
| Collect.AddPost | aggrep/jobs/collect.py:177-190 | a created post gets the next id, an action with zero clicks, impressions and ctr, and one entity-queue entry |
| Collect.Range | aggrep/jobs/collect.py:177-190 | the ids issued between two counters, in order |
| Collect.StepKeepsOld | aggrep/jobs/collect.py:177-188 | storing a post leaves every earlier post, action and queue entry in place |
| Collect.StepNewRows | aggrep/jobs/collect.py:165-188 | every post created in a visit passes the entry filters and comes with its action and queue entry |
| Collect.StepFreshLinks | aggrep/jobs/collect.py:171-174 | a post is created only for a link not yet seen, and its link joins the set |
| Collect.IngestEntryInv | aggrep/jobs/collect.py:151-190 | one entry keeps the intake invariant (old rows kept, new rows admissible, links fresh, count exact) |
| Collect.IngestInv | aggrep/jobs/collect.py:151-190 | the whole entry loop keeps the intake invariant |
| Collect.IngestFacts | aggrep/jobs/collect.py:147-190 | `new_post_count` is the number of posts created, and no link is created twice in a feed |
| Collect.RollBack | aggrep/jobs/collect.py:192-197 | a failed commit keeps the self-committed posts and actions and drops the pending queue entry |
| Collect.FeedStep | aggrep/jobs/collect.py:140-212 | a committed visit stamps the feed's status now with a clamped exponent; no other status changes |
| Collect.RunFeeds | aggrep/jobs/collect.py:140-212 | the run keeps the status table's shape and feeds |
| Collect.RunStatuses | aggrep/jobs/collect.py:140-212 | after a run every status is untouched or visited now within [1, 8]; non-due statuses are untouched; a full run visits every due feed |
| Collect.FeedStepRunInv | aggrep/jobs/collect.py:140-190 | a visit keeps the run invariant, since links stored earlier in the run are inside the next feed's link set |
| Collect.RunFeedsInv | aggrep/jobs/collect.py:140-212 | the whole run keeps the run invariant |
| Collect.RunCreatesDistinctAdmissiblePosts | aggrep/jobs/collect.py:137-190 | each post a run stores is admissible, and no two posts of one source share a link |
| Collect.Pow2Monotone | aggrep/jobs/collect.py:104 | a larger update frequency never gives a shorter back-off `2 ** update_frequency` |
| Collect.VisitedFeedRests | aggrep/jobs/collect.py:199-212 | a visited feed is not due again within 2 minutes and is due again after 256 |
| Collect.IsLocked | aggrep/jobs/collect.py:84-95 | a COLLECT lock at most 8 minutes old holds; an older one is deleted |
| Collect.IngestFeed | aggrep/jobs/collect.py:151-190 | the entry loop equals the intake specification |
| Collect.VisitFeed | aggrep/jobs/collect.py:140-212 | one feed visit equals `FeedStep` on the tables |
| Collect.RunDue | aggrep/jobs/collect.py:140-212 | the feed loop equals `RunFeeds` |
| Collect.CollectPosts | aggrep/jobs/collect.py:120-219 | locked or no due feed: nothing changes and no lock is created; otherwise the tables are `RunFeeds` and the lock is released on success and on failure |
| Collector.IsLocked | aggrep/jobs/collector/collect.py:16-27 | a COLLECT lock at most 8 minutes old holds; an older one is deleted |
| Collector.SourceLinksInsert | aggrep/jobs/collector/collect.py:107-110 | storing a post adds its link to its own source's link set and changes no other set |
| Collector.IngestEntryCache | aggrep/jobs/collector/collect.py:87-126 | an entry keeps the shared cache equal to the source's current link set |
| Collector.IngestCache | aggrep/jobs/collector/collect.py:87-126 | the entry loop keeps the cache current |
| Collector.VisitCached | aggrep/jobs/collector/collect.py:73-148 | a visit through the per-source cache equals the uncached `FeedStep` with the 2×days archival window |
| Collector.RunCached | aggrep/jobs/collector/collect.py:69-148 | the cached feed loop equals `RunFeeds` |
| Collector.CollectPosts | aggrep/jobs/collector/collect.py:52-155 | the variant with the intended lookup: the same outcome as the collection job, with the archival window now − 2×days |
| Collector.AsWrittenRun | aggrep/jobs/collector/collect.py:74-77 | as written, a run with a due feed fails at the cache lookup and keeps its new lock |
| Collector.AsWrittenLeavesLock | aggrep/jobs/collector/collect.py:63-77 | as written, the failed run makes the next run within 8 minutes report locked |
| Collector.AsWrittenExample | aggrep/jobs/collector/collect.py:63-77 | a concrete database showing the stuck lock |
| Ctr.IsLocked | aggrep/jobs/ctr.py:13-24 | an ANALYZE lock at most 8 minutes old holds; an older one is deleted |
| Ctr.GetDuePosts | aggrep/jobs/ctr.py:27-35 | exactly the actions with impressions > 0 and clicks > 0 are due |
| Ctr.Rate | aggrep/jobs/ctr.py:55 | the rate times the impressions equals the clicks, and it is positive |
| Ctr.UpdatedActions | aggrep/jobs/ctr.py:54-56 | due actions get ctr = clicks / impressions; every other action is unchanged |
| Ctr.UpdateIdempotent | aggrep/jobs/ctr.py:54-56 | updating twice gives the same table as updating once |
| Ctr.NoImpressionsKeepRate | aggrep/jobs/ctr.py:30-35 | an action without impressions keeps its ctr |
| Ctr.UpdateCtr | aggrep/jobs/ctr.py:38-59 | locked or nothing due: no change and no lock; otherwise the actions are `UpdatedActions` and the lock is released |
| Process.AsciiOnly | aggrep/jobs/processor/process.py:41 | the result keeps exactly the ASCII characters of the input |
| Process.ReplaceSlashNewline | aggrep/jobs/processor/process.py:42 | no new character appears except a space |
| Process.DropSpaces | aggrep/jobs/processor/process.py:43 | a suffix of the input that starts with a non-space |
| Process.Collapse | aggrep/jobs/processor/process.py:43 | no two whitespace characters are adjacent, and nothing but input characters and spaces appears |
| Process.Clean | aggrep/jobs/processor/process.py:39-44 | the cleaned text is ASCII, and every whitespace run became one space |
| Process.FilterAllKept | aggrep/jobs/processor/process.py:41 | ASCII text passes the ASCII filter unchanged |
| Process.NoSlashNewlineKept | aggrep/jobs/processor/process.py:42 | text without a newline passes the first substitution unchanged |
| Process.CollapsedKept | aggrep/jobs/processor/process.py:43 | text whose whitespace runs are single spaces passes the second substitution unchanged |
| Process.CleanIdempotent | aggrep/jobs/processor/process.py:39-44 | cleaning twice gives what cleaning once gives |
| Process.Lower | aggrep/jobs/processor/process.py:63 | lower-casing keeps the length, leaves no upper-case letter and keeps every other character |
| Process.Keyword | aggrep/jobs/processor/process.py:63-64 | a keyword has no upper-case letter and no punctuation |
| Process.SpanKeywordsMembers | aggrep/jobs/processor/process.py:53-64 | a span's keywords are exactly those of its kept tokens |
| Process.KeywordsSpans | aggrep/jobs/processor/process.py:52-66 | a word is a document keyword exactly when it is a keyword of one of its spans |
| Process.KeywordsMembers | aggrep/jobs/processor/process.py:52-64 | the document's keywords are exactly those of tokens that pass the length, punctuation, stop-word, digit and entity-type filters |
| Process.Extract | aggrep/jobs/processor/process.py:47-66 | the extraction loop returns the keywords of the document's spans, in order |
| Process.CounterOf | aggrep/jobs/processor/process.py:108-110 | the word order has no repeats and names exactly the counted words, each counted at least once |
| Process.CounterOfCounts | aggrep/jobs/processor/process.py:108-110 | the counter maps exactly the words of the list, each to its number of occurrences |
| Process.CounterSnoc | aggrep/jobs/processor/process.py:109-110 | one more word is one more tally |
| Process.CountWords | aggrep/jobs/processor/process.py:108-110 | the counting loop builds `CounterOf` |
| Process.FirstMax | aggrep/jobs/processor/process.py:117 | the first word of highest count |
| Process.MostCommon | aggrep/jobs/processor/process.py:117 | min(n, number of counted words) words |
| Process.MostCommonMembers | aggrep/jobs/processor/process.py:117 | every word taken is one of the counted words |
| Process.RemoveAtMembers | aggrep/jobs/processor/process.py:117 | taking the chosen word out keeps every other word |
| Process.RemoveAtDistinct | aggrep/jobs/processor/process.py:117 | taking a word out of a list without repeats leaves a list without repeats or that word |
| Process.MostCommonDistinct | aggrep/jobs/processor/process.py:117 | the words taken are distinct |
| Process.MostCommonTop | aggrep/jobs/processor/process.py:117 | no word left out is more common than a word taken |
| Process.TopKeywords | aggrep/jobs/processor/process.py:107-121 | at most 10 distinct keywords, each taken from the cleaned text |
| Process.CountTop | aggrep/jobs/processor/process.py:107-121 | clean, extract, count and select as the job does, equal to `TopKeywords` |
| Process.PostKeywords | aggrep/jobs/processor/process.py:104-121 | a post gets at most 10 distinct keywords, and none without a description |
| Process.KeywordRows | aggrep/jobs/processor/process.py:117-121 | one entity row per keyword, in keyword order, each naming the post |
| Process.KeywordRowsMembers | aggrep/jobs/processor/process.py:117-121 | a row is in a post's rows exactly when it names the post and one of its keywords |
| Process.QueuedKeywords | aggrep/jobs/processor/process.py:100-121 | a queued post's keywords are its post's keywords, at most 10 of them |
| Process.BatchEntities | aggrep/jobs/processor/process.py:100-121 | a batch adds at most 10 entities per post |
| Process.BatchStep | aggrep/jobs/processor/process.py:127-136 | a failed commit leaves the tables as they were |
| Process.SliceInPosts | aggrep/jobs/processor/process.py:94-97 | every slice of a queue of stored posts names stored posts |
| Process.BatchEntitiesMembers | aggrep/jobs/processor/process.py:100-121 | a batch's entity rows are exactly its posts' keywords |
| Process.BatchSimilarMembers | aggrep/jobs/processor/process.py:102-125 | a post joins the similarity queue exactly when it received a keyword |
| Process.BatchSimilarDistinct | aggrep/jobs/processor/process.py:123-125 | the similarity-queue rows of a batch are distinct |
| Process.RunQueueShrinks | aggrep/jobs/processor/process.py:127-129 | the run never adds to the entity queue |
| Process.RunDrainsQueue | aggrep/jobs/processor/process.py:94-138 | a fully committed run removes every enqueued post, described or not, from the entity queue |
| Process.RunKeepsSimilarityQueueDistinct | aggrep/jobs/processor/process.py:123-125 | the similarity queue stays free of repeats |
| Process.KeywordLoop | aggrep/jobs/processor/process.py:117-121 | the loop adds one row per keyword and sets `post_has_entities` exactly when there is one |
| Process.PostRows | aggrep/jobs/processor/process.py:100-125 | one post's loop body: its entity rows and whether it joins the similarity queue, none without a description |
| Process.BatchEntitiesSnoc | aggrep/jobs/processor/process.py:100-121 | extending a batch by one post extends its entity rows by that post's rows |
| Process.BatchSimilarSnoc | aggrep/jobs/processor/process.py:102-125 | extending a batch by one post adds that post to the similarity rows exactly when it got a keyword |
| Process.GatherStep | aggrep/jobs/processor/process.py:100-125 | appending one post's id, entity rows and queue row to the loop state gives the state of the batch one post longer |
| Process.GatherPost | aggrep/jobs/processor/process.py:100-125 | one pass of the post loop takes the gathered id list, rows and queue rows of the first `i` posts to those of the first `i + 1` |
| Process.GatherBatch | aggrep/jobs/processor/process.py:98-125 | the post loop collects every post id of the batch and its entity and queue rows |
| Process.CommitBatch | aggrep/jobs/processor/process.py:127-136 | one batch commit equals `BatchStep` and reports the entities added |
| Process.RunAdvance | aggrep/jobs/processor/process.py:94-138 | after a committed batch the rest of the queue finishes the same run; a failed commit ends it |
| Process.RunQueue | aggrep/jobs/processor/process.py:94-138 | the batch loop equals the run specification, and `new_entities` counts the rows added |
| Process.ProcessEntities | aggrep/jobs/processor/process.py:69-141 | locked or empty queue: no change and no lock; otherwise the run specification, with the lock released |
| Relate.IsLocked | aggrep/jobs/relate.py:16-27 | a RELATE lock at most 8 minutes old holds; an older one is deleted |
| Relate.EntityIndex | aggrep/jobs/relate.py:30-39 | each keyword maps to exactly the posts of the last 2 days that have it |
| Relate.EntityIndexSnoc | aggrep/jobs/relate.py:33-35 | one more entity row of a recent post adds that post to its keyword's ids; other rows change nothing |
| Relate.GetEntityCache | aggrep/jobs/relate.py:30-39 | the index-building loop equals `EntityIndex` |
| Relate.PostWords | aggrep/jobs/relate.py:70 | exactly the post's keywords |
| Relate.WordSet | aggrep/jobs/relate.py:71 | the set of exactly the post's keywords |
| Relate.Candidates | aggrep/jobs/relate.py:73-79 | the union of the index entries of the post's keywords |
| Relate.CandidatesShareKeyword | aggrep/jobs/relate.py:73-82 | a candidate is exactly a recent post sharing a keyword |
| Relate.Related | aggrep/jobs/relate.py:84-103 | the related posts are exactly the candidates other than the post itself scoring at least the threshold |
| Relate.PairRowsAdd | aggrep/jobs/relate.py:97-101 | each new match adds the two rows s→r and r→s |
| Relate.PairRowsSize | aggrep/jobs/relate.py:101 | two rows per related post |
| Relate.SymmetricSum | aggrep/jobs/relate.py:97-100 | symmetric, self-free tables stay so when combined |
| Relate.PairRowsSymmetric | aggrep/jobs/relate.py:87-100 | a post's rows are symmetric and contain no self-pair |
| Relate.BatchStep | aggrep/jobs/relate.py:105-114 | a failed commit leaves the tables as they were |
| Relate.BatchRowsSymmetric | aggrep/jobs/relate.py:68-101 | a batch's rows are symmetric and self-free, and their number is even, two per pair |
| Relate.RunKeepsSymmetric | aggrep/jobs/relate.py:63-116 | a run keeps the similarity table symmetric and free of self-pairs |
| Relate.RunQueueShrinks | aggrep/jobs/relate.py:105-107 | the run never adds to the similarity queue |
| Relate.RunDrainsQueue | aggrep/jobs/relate.py:62-116 | a fully committed run removes every enqueued post |
| Relate.GatherCandidates | aggrep/jobs/relate.py:73-79 | the union loop equals `Candidates` |
| Relate.Matches | aggrep/jobs/relate.py:86-96 | matches are candidates and never the post itself |
| Relate.MatchesAdd | aggrep/jobs/relate.py:86-103 | one more candidate is scored once and adds itself at most |
| Relate.ScoreStep | aggrep/jobs/relate.py:86-103 | scoring one more candidate adds its two rows exactly when it is another post and its overlap reaches the threshold |
| Relate.ScoreCandidates | aggrep/jobs/relate.py:84-103 | the scoring loop with its seen-set emits two rows per match |
| Relate.RelatePost | aggrep/jobs/relate.py:69-103 | one post's rows are the pairs with its related posts |
| Relate.GatherBatch | aggrep/jobs/relate.py:66-103 | the batch loop gathers every post id and all pair rows |
| Relate.CommitBatch | aggrep/jobs/relate.py:105-114 | one batch commit equals `BatchStep` |
| Relate.RunAdvance | aggrep/jobs/relate.py:62-116 | after a committed batch the rest of the queue finishes the same run; a failed commit ends it |
| Relate.RunQueue | aggrep/jobs/relate.py:62-116 | the batch loop equals the run specification, and `new_similarities` counts the rows added |
| Relate.RunJob | aggrep/jobs/relate.py:42-119 | the job for a given threshold: locked or empty queue leaves everything unchanged; otherwise the run specification, lock released |
| Relate.ProcessSimilarities | aggrep/jobs/relate.py:12-119 | the job with threshold 0.8 |
| Relater.RelatedMonotone | aggrep/jobs/relater/relate.py:82-83 | a lower threshold relates every pair a higher one does |
| Relater.BatchRowsIncluded | aggrep/jobs/relater/relate.py:55-90 | every row the 0.8 job records, the 0.75 variant records too |
| Relater.PairRowsIncluded | aggrep/jobs/relater/relate.py:84-88 | more related posts give more pair rows |
| Relater.ProcessSimilarities | aggrep/jobs/relater/relate.py:15-107 | the inline lock check, index and batch loop give the run specification with threshold 0.75 |
| Purge.ExpiredIds | aggrep/jobs/cleanser/purge.py:14-15 | exactly the posts published before the cutoff |
| Purge.ExpiredPosts | aggrep/jobs/cleanser/purge.py:15 | the query lists each expired post once |
| Purge.BatchStep | aggrep/jobs/cleanser/purge.py:30-36 | a committed batch deletes exactly its posts; no other row changes |
| Purge.RunPurge | aggrep/jobs/cleanser/purge.py:20-38 | the run only deletes rows |
| Purge.RunPurgeKeeps | aggrep/jobs/cleanser/purge.py:15-30 | a post in no batch survives |
| Purge.RunPurgeDeletes | aggrep/jobs/cleanser/purge.py:20-38 | a fully committed run deletes every listed post |
| Purge.PurgeExact | aggrep/jobs/cleanser/purge.py:14-38 | posts at or after the cutoff are untouched; a full run leaves exactly them |
| Purge.BatchIds | aggrep/jobs/cleanser/purge.py:25-28 | the batch's id set, with one count per post |
| Purge.PurgeAdvance | aggrep/jobs/cleanser/purge.py:20-38 | the run from one batch on is that batch's commit followed, when it commits, by the run from the next batch on |
| Purge.DeleteBatches | aggrep/jobs/cleanser/purge.py:18-38 | the batch loop equals `RunPurge` and counts every expired post |
| Purge.PurgePosts | aggrep/jobs/cleanser/purge.py:12-40 | deletes exactly the posts older than 7 days, touches no newer post, and `expired_count` equals the number deleted |
| Purge.DistinctCardinality | aggrep/jobs/cleanser/purge.py:17-27 | a list without repeats is as long as the set it lists |
| Views.TablesOf | aggrep/api/views.py:80-87 | the tables the routes read |
| Views.SortOf | aggrep/api/views.py:51-60 | "popular" selects the popular order and every other value the latest order |
| Views.KeyOf | aggrep/api/views.py:54-57 | a post's sort key is its click count, bookmark count and publication time |
| Views.Insert | aggrep/api/views.py:51-60 | inserting into an ordered list keeps it ordered and adds the post once |
| Views.SortPosts | aggrep/api/views.py:51-62 | the result is a permutation of the input, ordered by the chosen key |
| Views.Select | aggrep/api/views.py:80-87 | the filter keeps exactly the posts the selection allows, with their multiplicity |
| Views.SelectSame | aggrep/api/views.py:80-87 | two selections that allow the same posts give the same rows |
| Views.Listed | aggrep/api/views.py:80-89 | a listing holds exactly the allowed posts, ordered |
| Views.AllPosts | aggrep/api/views.py:65-104 | the front page lists exactly the posts of the last 2 days that the reader's category and source exclusions allow, ordered, under the sort's title |
| Views.PostsBySource | aggrep/api/views.py:107-154 | an unknown slug is an error; otherwise the source's posts of the last 2 days, excluding only the reader's excluded categories |
| Views.PostsByCategory | aggrep/api/views.py:157-203 | an unknown slug is an error; otherwise the category's posts of the last 2 days, excluding only the reader's excluded sources |
| Views.BySourceIgnoresSourceExclusions | aggrep/api/views.py:125-133 | a source listing does not depend on the reader's excluded sources |
| Views.ByCategoryIgnoresCategoryExclusions | aggrep/api/views.py:175-183 | a category listing does not depend on the reader's excluded categories |
| Views.FrontPageWithoutExclusions | aggrep/api/views.py:82-87 | a reader who excludes nothing sees the anonymous front page |
| Views.FrontPageExclusionsMonotone | aggrep/api/views.py:82-87 | excluding more never adds a post |
| Views.SimilarPosts | aggrep/api/views.py:206-242 | an unknown post is an error; otherwise the post itself and its related posts, latest first |
| Views.BookmarkedIds | aggrep/api/views.py:270-275 | exactly the reader's bookmarked post ids, without repeats when the table has none |
| Views.FindBookmark | aggrep/api/views.py:287-299 | the first bookmark of the (user, post) pair, or none exactly when there is none |
| Views.SaveBookmark | aggrep/api/views.py:276-292 | 400 "No post ID provided." / "Post ID is invalid."; otherwise 200 "Bookmark saved!" with the pair bookmarked, at most one row appended, no duplicate created, and no other pair changed |
| Views.SaveIdempotent | aggrep/api/views.py:287-291 | saving a bookmark twice gives the table and reply of saving once |
| Views.RemoveBookmark | aggrep/api/views.py:293-301 | fails exactly without the id or the bookmark; otherwise removes one row, so the pair is no longer bookmarked |
| Views.SaveThenRemove | aggrep/api/views.py:276-301 | saving a new bookmark and then removing it gives back the table |
| Views.BookmarkedPosts | aggrep/api/views.py:244-261 | exactly the stored posts the reader bookmarked, titled "Bookmarked Posts" |
| Views.BookmarkPost | aggrep/api/views.py:276-292 | the POST route writes `SaveBookmark`'s table and answers with the reader's bookmarked ids |
| Views.BookmarkDelete | aggrep/api/views.py:293-301 | the DELETE route writes `RemoveBookmark`'s table and answers "Bookmark removed!" |
| Views.TrackView | aggrep/api/views.py:304-331 | 400 "Invalid request." without JSON, then the two id errors; otherwise one click is recorded, with the reader when known |
| Views.TrackViewCounts | aggrep/api/views.py:316-331 | a recorded view raises the post's click count by one |
| Views.RecordView | aggrep/api/views.py:304-331 | the route writes `TrackView`'s click table |
| Views.NewExclusions | aggrep/api/views.py:363-368 | a POST replaces the exclusions with the given ids that exist; a POST without the list fails |
| Views.PreferencesOf | aggrep/api/views.py:370-371 | included ids are all ids minus the excluded ones, so the two are disjoint and cover all ids |
| Views.ManageSources | aggrep/api/views.py:355-380 | only the reader's excluded sources change, and the answer partitions the sources |
| Views.ManageCategories | aggrep/api/views.py:383-409 | only the reader's excluded categories change, and the answer partitions the categories |
| Views.ReplaceSourcesSettles | aggrep/api/views.py:363-371 | after a POST, showing or repeating the POST gives the same answer |
| Views.ReplaceCategoriesSettles | aggrep/api/views.py:391-401 | after a POST, showing or repeating the POST gives the same answer |
| Views.ManageSourcesRoute | aggrep/api/views.py:355-380 | the route stores the new exclusions for the reader and changes no other user |
| Views.ManageCategoriesRoute | aggrep/api/views.py:383-409 | the route stores the new exclusions for the reader and changes no other user |
| Forms.Value | aggrep/api/forms.py:13-22 | a field missing from the request holds the empty string |
| Forms.RunChain | aggrep/api/forms.py:13-44 | a field's checks keep the earlier errors, unless a "required" check fails alone |
| Forms.ChainMessages | aggrep/api/forms.py:13-44 | every reported message is one of the field's check messages |
| Forms.FormErrors | aggrep/api/forms.py:10-44 | one error list per field, each from that field's check chain |
| Forms.UnregisteredErrors | aggrep/api/forms.py:50-59 | the address lookup runs only after the field checks pass; the form passes exactly when they pass and the address is unused |
| Forms.EmailFieldErrors | aggrep/api/forms.py:13-19 | a blank address gives "Email is required." alone; otherwise "Email is invalid." exactly when it is malformed |
| Forms.RequiredFieldErrors | aggrep/api/forms.py:20-22 | a required field reports its message exactly when it is blank |
| Forms.ConfirmFieldErrors | aggrep/api/forms.py:38-44 | a blank confirmation gives "This field is required."; otherwise "Passwords must match." exactly when it differs |
| Forms.LoginRules | aggrep/api/forms.py:10-22 | login fails with the e-mail and password messages and passes exactly with a well-formed address and a password |
| Forms.RegisterFieldRules | aggrep/api/forms.py:25-44 | sign-up field checks: login's plus a required confirmation equal to the password |
| Forms.RegisterRules | aggrep/api/forms.py:50-59 | sign-up passes exactly when all fields pass and the address is unused; "Email already registered" appears exactly when only the address is taken |
| Forms.ConfirmEmailRules | aggrep/api/forms.py:62-67 | any token that is not blank passes |
| Forms.RequestResetRules | aggrep/api/forms.py:70-79 | passes exactly with a well-formed address |
| Forms.PasswordFormRules | aggrep/api/forms.py:82-116 | a form of one required field, a required new password and its confirmation: each field's errors, and it validates exactly when both are filled and the confirmation equals the new password |
| Forms.ResetPasswordRules | aggrep/api/forms.py:82-97 | token and new password required, the confirmation must equal the new password |
| Forms.UpdatePasswordRules | aggrep/api/forms.py:100-116 | current and new password required, the confirmation must equal the new password |
| Forms.UpdateEmailRules | aggrep/api/forms.py:119-143 | passes exactly with a well-formed address no user has; a taken address reports "Email already registered" alone |
| Forms.Form.constructor | aggrep/api/forms.py:46-48 | a bound form starts with no errors |
| Forms.Form.Validate | aggrep/api/forms.py:10-44 | validation stores each field's errors and succeeds exactly when all are empty |
| Forms.Form.ValidateUnregistered | aggrep/api/forms.py:50-59 | validation with the address lookup, appending "Email already registered" in place |

## Left out

- Time zones, `datetime` arithmetic and `astimezone` are left out: times are integer minutes. The conversion that may raise becomes the `Env.localizes` predicate.
- A job or route reads the clock several times; the model reads it once, as the `now` parameter.
- Network fetching (`feedparser.parse`), BeautifulSoup text extraction and `mktime` are parameters of `Collect.Env`.
- spaCy is the `nlp` parameter: each token's text, lemma, punctuation, stop-word, digit and entity-type attributes are given.
- `Process.Lower` lower-cases ASCII letters only; Python's `lower()` also folds other scripts.
- `aggrep.utils.overlap` and its floating-point score are the `overlap` parameter. The threshold comparison is on reals.
- The ctr column's Numeric(4,3) rounding is left out; `Ctr.Rate` is the exact ratio.
- Password hashing and the confirmation and reset tokens are foreign cryptography and are not modelled. So are the authentication routes whose outcome depends on them (login, register, confirm, reset, update), beyond their forms.
- E-mail sending, Celery scheduling, the response cache, JWT identity and template rendering are left out: they are I/O and plumbing.
- `before_request` stamping `last_seen` (aggrep/api/views.py:34-40) is left out: it writes a column no modelled rule reads.
- The `sources` and `categories` listing routes are left out: they only serialise a table.
- The routes return the whole ordered id list; the paginated listing is modelled only as `Models.CollectionOfPage`, not wired into the routes.
- Models.Paginate: only a page and a page size of at least one are modelled. How the library treats other values, and its shortcut total on the first page, are not modelled.
- Ties in sort order are left out: SQL leaves their order unspecified, and the model keeps the database's read order (`scan`).
- Cascading deletes are left out: the purge model only deletes from the posts table, and the database drops the dependent rows.
- Concurrency between jobs, and a lock row raced by two workers, are left out: the model is sequential.
- The base `Job` class (aggrep/jobs/base.py:46-58) is left out: its `run` does nothing.
- A commit failure is the `fails(k)` oracle. Its effect is modelled: rollback, lock release and the failed outcome. Raising the exception is not.
- `Locks.Lock.Remove` requires an existing lock: the source dereferences the missing row and raises `AttributeError`, which the model does not reproduce.
- `Relate.GetEntityCache` loops over entity rows, not over posts and then their entities; the resulting index is the same.
- `Process.RunQueue`: `newEntities` is stated only for a run whose commits all succeed; a failed run reports nothing.
- `Views.SimilarPosts`: the route adds the URL's `post_id` string to a set of integer ids. The model treats it as the integer id, so the post itself is listed.
- A route that raises (an unknown post in `similar_posts`, a missing bookmark in the DELETE route, a missing list in a manage POST) is modelled as the error result `ServerError`. The HTTP 500 response is not modelled.
- `request.get_json()` parse errors are not modelled: the request body arrives already decoded.
- Forms.Value: a form field is a string, and a field missing from the request is `""`. The forms are built from `MultiDict(request.get_json())`, so a JSON number, boolean, `null` or list would reach the validators as it is. Non-string JSON values are not modelled. "Required" on `0`, `false` or `null`, `EqualTo` across types and the first element of a list are therefore not captured.
- The CSRF protection of `FlaskForm` is not modelled.
- `tests/jobs/test_relate.py` imports a `Relater` class that is not in the shown code; that test is not part of this model.

## Findings

| source | as written | input that shows it | evidently intended | confidence | as-written member | corrected member |
|---|---|---|---|---|---|---|
| aggrep/jobs/collector/collect.py:76 | the per-source link lookup calls `get_source_cache`, which this file does not define (the function at line 43 is `get_source_posts`), so the first due feed raises `NameError` after the COLLECT lock was created, and the lock is never deleted | a database with no lock and one status last updated at minute 0 with exponent 0, run at minute 10: the run fails and leaves the lock, and a run at minute 12 reports "locked" | call `get_source_posts(feed, archival_offset)` and cache its result per source | not executed | Collector.AsWrittenLeavesLock | Collector.CollectPosts |
