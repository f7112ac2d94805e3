# Clipboard history, selection broker and portal registration: a Dafny model

The repository keeps a clipboard. Three parts of it are modelled here, each as the
state machine its code is, and each is proved to agree with something simple.

**The history store** (`clip/src/lib.rs`, `segment.rs`, `query.rs`, `active.rs`,
`record.rs`, `codec.rs`) is a small log-structured database: an append-only log with a
mirror in memory, sealed segments with posting lists and sorted tables, tiered merging,
a manifest replaced atomically, recovery after a crash, and a search over a trigram
index. What it must agree with is the *abstract history* `Stores.Abs`: a map from live
ids to (entry, multiset of copies, multiset of pastes) and the next id. Every call is
stated over that map. A search equals a scan of it, sealing and merging leave it as it
was, and after a crash at any file step the directory opens to the map before the call
or the map after it (or, for `import`, to exactly a first part of what it adds, and for
`replace`, to one with the old entry whole or the new one whole). `Scripts.Play` drives the objects themselves through any script of
calls, crashes within calls and reopenings, and what it answers is such a run.

**The selection broker** (`clip/src/broker.rs`, `broker_transport.rs` and the client's
half in `shared/clipboard_client.rs`) holds each instance's selections under budgets and
serves them over a framed protocol whose two codecs were written apart. It must agree
with direct calls: whatever a client asks is what is carried out, whatever it is told is
what the broker answered, and the byte counts are the buffers. `Exchanges.Play` puts both
ends together: client and peer in any turns, the bytes between them in any pieces, others
calling the broker meanwhile.

**The portal registration** of a bus connection (`rust/src/bus_filter.rs`) is two threads
over one locked state. It is modelled as interleaved steps with a ghost record of the
calls in flight, of what went up and of what came down.

## Layout

| files | source |
|---|---|
| `Codec`, `Order`, `Wrappers` | `clip/src/codec.rs`, the heap merge of `segment.rs` |
| `Postings`, `IdSets`, `Text` | posting lists of `segment.rs`; `query.rs` |
| `Records`, `Logs`, `LogIndex` | `record.rs`, `active.rs` |
| `Entries`, `Stores` | an entry's terms and canonical form; the abstract history and what each change does to it |
| `Rows`, `Segments`, `SegmentWriter`, `Lookups`, `Compaction`, `Tiers` | `segment.rs` and the lookups, `seal`, `merge` and `tier` of `lib.rs` |
| `Disk`, `Manifests`, `Recovery`, `Changes`, `Rewriting`, `Steps` | files, the manifest, what a directory holds, and every file step of every call |
| `Histories`, `Opening`, `Runs`, `Scripts`, `Shortfalls` | `History` and its calls, `open_with`, runs of calls, crashes and reopenings, the driver of such runs, and two calls that surprise |
| `Meanings`, `Searching`, `Queries` | what a query means of an entry itself, the conditions made of it, and the search that finds it |
| `Brokers`, `BrokerRuns` | the broker, and the driver of its calls |
| `Wire`, `Transports`, `Peers`, `Scheduling`, `Clients`, `Exchanges` | both codecs, the server's and the client's state machines, and the two put together |
| `Registration`, `Authentication` | `bus_filter.rs` |

Classes are where the source has objects whose methods change them (`Active`,
`Postings`, `Reader`, `History`, `Broker`, `Peer`, `Transport`, `Client`, `Auth`, the
connection); their loops are the source's loops. What does not change is a datatype.
`Disk.Dir` keeps a trace of every state the files were in, byte by byte for the
log, so that "stopped anywhere" is a statement about that trace.

What lies outside is a parameter. `Entries.Env` holds the AEAD, the keyed hashes, the
CRC, UTF-8, lowercase of a character, the preview made of a text, the regex parser and the regex engine; of these
only this is assumed: opening what was sealed under the same id gives it back, and sealing
adds 40 bytes, a nonce and a tag (`Records.Lawful`); and the engine matches as the parsed
tree says (`Queries.EngineRight`). Hashes may collide everywhere. `Wire.Chars` holds the character
tables of the transport (only text is without control characters, `Transports.TextOnly`),
an allocator gives at least what is asked or fails
(`Transports.Reserves`), and a stream is any script of partial reads, writes, waits and
failures (`Peers.Stream`).

## Where the code does less than its comments say

* **Importing onto an entry that is already there** records the first copy twice:
  `append` has recorded it and nothing is skipped then. And importing an entry that was
  never copied gives it a copy, at its own time. `Histories.ImportKeepsCopies` proves that
  copies are conserved if and only if no live entry has these contents and the entry was
  copied at least once, which a caller can see before the call;
  `Shortfalls.CopiedOnceTooOften` is an entry copied once, read with `get` and imported
  where it came from: three copies.
* **Replacing** takes the entry's own time for its first copy and skips the earliest
  recorded one. `Histories.EditKeepsCopies` proves that the copies are kept if and only
  if none is earlier than that time. `Shortfalls.EarlierCopyLost` is an entry made at 5,
  copied again at 1 and edited: the copy at 1 is gone and there are two at 5.
* **The bus side going before the first Hello is taken** can leave the reader waiting for
  an answer to it although `bus_gone` is there so that nobody waits: taking the Hello
  overwrites the end noted before it. `Registration.WaitsForNobody` proves that after the
  end the reader waits if and only if the end came before the first message, that was a
  Hello, and it still went up, between `bus_gone` and the shutting of the sockets;
  `Registration.LeftWaiting` is such a run beside the one in which the sockets are shut
  first, and `Registration.WaitsForever` says that nothing ends that wait.
* **The greatest time there is** is around nothing: the end of an `around` window is one
  past its last moment and saturates, so an event at the greatest i64 is not found even
  around that time. `Meanings.OnTimeIs` has the exact condition, `Meanings.LastMomentMissed`
  the entry that is missed.
* **The byte 127** is let through in authentication lines, which are to have no control
  characters; `Authentication.LineMeans` says exactly which bytes are.
* **Types are matched by hash only**; `Searching.TypesAreExact` gives exactly when that is
  the same as matching types.

## Model

| member | source | states |
|---|---|---|
| Histories.History.Query | clip/src/lib.rs:912-1088 | For every well-formed history and query, `before` and `limit`, the answer is exactly the first `limit` ids of a newest-first scan of the abstract history, and so `Meanings.IsAnswer`: descending live ids below the bound that have a copy in `copied`, a paste in `pasted`, a copy or paste around `around`, the text and the types asked for, none such left out but older ones past the limit; `limit` 0 is empty, an unparsable pattern is `BadPattern` |
| Meanings.HitMeans | clip/src/lib.rs:912-1088 | What the scan takes is, without any of the search's own conditions: a live entry with a copy in [a, b) for `copied`, a paste in [a, b) for `pasted`, a copy or paste at most the window from the time for `around`, every word in the lowercase of its searched text and the pattern matching it, and one of the types asked for |
| Meanings.ScanAnswers | clip/src/lib.rs:912-1088 | The scan is the answer so meant: descending, at most the limit, all of it fits, and a fitting entry left out is older than the whole of a full answer |
| Meanings.OnTimeIs | clip/src/lib.rs:954-966 | The time conditions come to: a copy in one half-open range, a paste in the other, either at most the window from its time; at the saturated end only an event at the greatest i64 is never around |
| Meanings.LastMomentMissed | clip/src/lib.rs:959-966 | An entry whose events are all at the greatest i64 is not found around that very time, whatever the window |
| Meanings.WordedIs | clip/src/lib.rs:917-941 | Words and pattern come to: nothing asked, or there is a searched text with every word in it whatever the case and the pattern matching; words empty in lower case ask nothing |
| Meanings.TextIs | clip/src/lib.rs:428-444 | The searched text is that of the best of five names, case and spaces aside, whose first content can be read, or else the first readable content of any type of text |
| Meanings.TypedIs | clip/src/lib.rs:480-488 | A type asked for comes to: its hash is that of a lowercased type of the entry, of all types of one's sort (what is before the first slash), or, colliding, of a trigram of the text |
| Queries.SearchParts | clip/src/lib.rs:987-1087 | The walk over the log and the segments, newest first, each bounded by its ids and by `before`, returns exactly the scan of the history, whichever times became sets and whichever were deferred |
| Queries.WalkPart | clip/src/lib.rs:1051-1086 | Inside one part the leapfrog candidates, checked one by one, give exactly the matches the scan finds there, none skipped between candidates |
| Queries.Accept | clip/src/lib.rs:1053-1081 | A candidate of the sets is kept exactly when it is an entry of that part and a hit of the query on the abstract history: not deleted, its deferred times and its text checked exactly |
| Queries.SetsOf | clip/src/lib.rs:1003-1050 | The sets built for a part intersect in exactly the ids of the part with every trigram and type term asked for and every gathered time; no sets exactly when nothing can match |
| Queries.SplitConds | clip/src/lib.rs:952-984 | Every time condition is either turned into a set holding exactly the ids with an event in its range, or deferred, exactly those with more than `time_set_max` events in range while something else narrows the search; none is lost |
| Queries.CountTimes | clip/src/lib.rs:879-893 | The number of events of the kind in the half-open range, over all segments' time tables and the log |
| Searching.ScanIs | clip/src/lib.rs:912-916 | Independent reading of the answer: matches only, strictly descending, below the bound, at most `limit`, and nothing newer left out |
| Searching.PagesConcatenate | clip/src/lib.rs:912-916 | Pages asked for below the last id of the page before concatenate to the whole answer |
| Searching.TextIsIndexed | clip/src/lib.rs:926-941 | Contents that fit the words and the pattern have every trigram the query asks the index for among the terms indexed at append |
| Searching.TypesAreExact | clip/src/lib.rs:1092-1112 | Types are matched by their term hashes only: what fits offers the type or its major type, or has a type term or trigram that collides with one asked for, and the converse; so fitting is offering if and only if one is offered or nothing collides |
| Text.RequiredLiteralsAreFound | clip/src/query.rs:39-119 | Wherever a pattern matches in a text, every run `required_literals` collected is a substring of the lowercased text, and its trigrams are among the text's |
| Text.MatchHasRuns | clip/src/query.rs:49-74 | For every regex tree and every match, every run collected is in the lowercase of the part matched |
| Text.LiteralIsExact | clip/src/query.rs:76-119 | A tree taken for a literal matches only texts whose lowercase is that literal (classes of one letter in its cases included) |
| Text.LiteralIs | clip/src/query.rs:76-119 | Exactly the trees of fixed letters are taken for literals: texts, classes of one to four characters (bytes below 128) that are one in lower case, and groups and concatenations of these |
| Text.RequiredLiterals | clip/src/query.rs:39-47 | The runs returned are the non-empty ones collected |
| Text.Collect | clip/src/query.rs:49-74 | The loop that pushes runs to the output computes the collected runs the proofs speak of |
| Text.CutTrigrams | clip/src/query.rs:19-34 | Every window of three characters is cut, and nothing else |
| Text.TrigramsOfPart | clip/src/query.rs:19-34 | The trigrams of a contained string are among those of the text |
| Text.LowerConcat | clip/src/query.rs:14-16 | Lowercasing is per character, so it distributes over concatenation |
| Histories.History.Append | clip/src/lib.rs:592-619 | Exact deduplication, whatever hashes collide: `Again(id)` with one more copy and its record as it was exactly when a live entry has these contents (as a multiset of type and bytes), and then the newest such id; otherwise what `append_new` does; a crash at any file step recovers to before or after |
| Histories.History.AppendNew | clip/src/lib.rs:621-664 | Ok: the item under the next id has the time and contents given, the preview given or, with none given, what is made of the searched text, or else an empty one, one copy at its time and no paste, and every other item is as it was; too large, in its types and data or in its frame, is refused with nothing changed |
| Entries.SizeAdds | clip/src/lib.rs:622-625 | The size that is limited counts every content's type name and data once |
| Histories.History.NewestSame | clip/src/lib.rs:597-617 | Among all entries with the hash the newest live one with exactly these contents, or none |
| Histories.History.ContainsContents | clip/src/lib.rs:669-686 | True exactly when a live entry has these contents, so it agrees with what `append` decides |
| Entries.CanonicalIsExact | clip/src/lib.rs:466-477 | Canonical forms are equal exactly when the contents are equal as multisets of (type, bytes) |
| Histories.History.Import | clip/src/lib.rs:691-706 | New: the item made at the first copy, with the contents, the preview and exactly the copies and pastes given; already there: its record as it was and all events added after one copy at the first time; at every crash point the history is the old one, or the entry with exactly a first part of the new events in the order they are recorded, and nothing else differs |
| Histories.ImportKeepsCopies | clip/src/lib.rs:691-706 | Pastes are always conserved; copies are if and only if no live entry has these contents and the entry imported was copied at least once: onto an entry that is there its first copy is recorded twice, and an entry never copied gets a copy |
| Shortfalls.CopiedOnceTooOften | clip/src/lib.rs:691-706 | In any empty history with room: an entry copied once at 5 is appended, got and imported into the history it came from; all three succeed, it is found there, and it has three copies at 5 |
| Histories.History.Replace | clip/src/lib.rs:712-738 | The old id is gone and the new, greater one has the new contents and preview, the time of the old one and its events; at every crash point the old item is whole, with or without the new one beside it, or the new one is whole and the old gone |
| Histories.EditKeepsCopies | clip/src/lib.rs:712-738 | The copies are kept exactly when no copy is before the time the entry was made |
| Shortfalls.EarlierCopyLost | clip/src/lib.rs:712-738 | In any empty history with room: an entry made at 5 is copied again at 1 and edited; all of it succeeds, and both copies are at 5 |
| Histories.History.AddEvents | clip/src/lib.rs:696-704 | Exactly the given copies and pastes are added to that entry; at every crash point exactly a first part of them is, in order, and nothing else differs |
| Histories.History.RecordCopy | clip/src/lib.rs:742-749 | True exactly for a live id, which gets one more copy; otherwise nothing changes |
| Histories.History.RecordPaste | clip/src/lib.rs:751-757 | True exactly for a live id, which gets one more paste; otherwise nothing changes |
| Histories.History.Delete | clip/src/lib.rs:766-774 | True exactly for a live id, which is then gone while every other item is unchanged |
| Histories.History.Exists | clip/src/lib.rs:780-786 | True exactly when the entry is stored and no tombstone of it is anywhere |
| Histories.History.IsDeleted | clip/src/lib.rs:784-786 | True exactly when some segment or the log holds a tombstone of the id |
| Histories.History.BlobOf | clip/src/lib.rs:788-805 | The blob of the id wherever it is stored, although only one segment is looked into |
| Histories.History.Get | clip/src/lib.rs:835-855 | Present exactly for live ids, with the contents, preview, and every copy and paste in ascending order |
| Lookups.EventsIn | clip/src/lib.rs:817-832 | The ascending lists of exactly the copies and the pastes recorded of the id anywhere |
| Lookups.SegmentWith | clip/src/lib.rs:788-795 | The binary search by id range finds the only segment that can hold the id, or shows that none does |
| Lookups.OneRange | clip/src/lib.rs:788-795 | An entry of one segment lies in the id range of no other |
| Histories.History.SealLog | clip/src/lib.rs:1115-1145 | The log becomes a segment and a new log begins; the abstract history is unchanged and every crash point recovers to it; a tombstone dropped hid nothing that is still stored |
| Histories.History.Seal | clip/src/lib.rs:1115-1145 | The history is unchanged, the log is empty, with auto-merging no long run of one tier is left after a seal that wrote something, and an empty log is left as it is |
| Histories.History.Merge | clip/src/lib.rs:1209-1251 | The history is unchanged, one segment replaces the range, stored entries do not grow, a tombstone is dropped only when neither its entry nor an event of it is left, and merging everything leaves no tombstone |
| Histories.History.MergeTiers | clip/src/lib.rs:1179-1198 | The history is unchanged; it terminates, every merge (one file number each) leaving at least fanout - 1 segments fewer, with the newest run of one tier shorter than the fanout in the end |
| Histories.History.Compact | clip/src/lib.rs:1200-1207 | The history is unchanged; at most one segment and an empty log are left, no tombstone, the ids stored are exactly the live ids, and of what a tombstone hid neither entry nor event is left |
| Histories.History.MaybeSeal | clip/src/lib.rs:1147-1152 | The log is sealed exactly when it reached the size; either way the history is unchanged and every crash point recovers to it |
| Tiers.NewestRun | clip/src/lib.rs:1179-1195 | Says exactly whether the trailing run of segments of one tier is at least as long as the fanout, and where it begins |
| Tiers.Tier | clip/src/lib.rs:1165-1177 | The loop computes the tier of a size |
| Tiers.LevelsBracket | clip/src/lib.rs:1165-1177 | A size of tier t is between the t-th and the next power of the fanout |
| Histories.History.TermsOf | clip/src/lib.rs:633-651 | The terms of an entry, ascending and once each, are exactly its type terms and the trigrams of its lowercased text, whatever the cache held |
| Histories.History.TextTerms | clip/src/lib.rs:633-645 | The trigram terms of the searched text, with the cache kept right |
| Histories.TypeTermList | clip/src/lib.rs:480-488 | Each type with its major types and wildcards, hashed |
| Stores.EntryAppended | clip/src/lib.rs:621-664 | Appending an entry keeps the store invariant and adds exactly that item |
| Stores.EventAppended | clip/src/lib.rs:759-764 | An event of a live entry keeps the invariant and adds exactly that copy or paste |
| Stores.TombAppended | clip/src/lib.rs:766-774 | A tombstone keeps the invariant and takes away exactly that item |
| Stores.RewriteKeeps | clip/src/lib.rs:1209-1251 | Any rewriting of a range of parts that drops what is dead there and keeps tombstones whose entries are stored before it keeps the invariant and the abstract history |
| Stores.TombstoneServed | clip/src/lib.rs:1209-1232 | Between two sound states of which the later follows the earlier, a tombstone is gone only when neither its entry nor any event of it is stored any more |
| Lookups.TombsAreServed | clip/src/lib.rs:1209-1232 | The same for what the directory holds: every tombstone that is gone has nothing left to hide |
| Stores.EmptyLogKeeps | clip/src/lib.rs:1127-1140 | A new empty log changes nothing |
| Rewriting.SealKeeps | clip/src/lib.rs:1115-1145 | The history found with the sealed segment and the new manifest is sound and the same, with the same next id |
| Rewriting.MergeKeeps | clip/src/lib.rs:1209-1251 | The same for a merge |
| Compaction.SealSegment | clip/src/lib.rs:1121-1131 | The segment written for a seal is good and is exactly the log rewritten; tombstones of entries of older segments are kept |
| Compaction.MergeSegments | clip/src/lib.rs:1209-1232 | The segment written for a merge is good and is exactly those segments rewritten; a tombstone is dropped only when its entry is in no older segment |
| SegmentWriter.Write | clip/src/segment.rs:489-651 | The new segment has sorted tables and lists that agree exactly with the live entries of its inputs, all their live events and hashes, and the tombstones to keep; its size is that of its file, the header and nine sections |
| SegmentWriter.WriteEntries | clip/src/segment.rs:510-541 | The locations and the blobs, written in two passes over the inputs, point at each other: the same live rows in the same order |
| SegmentWriter.LaidOut | clip/src/segment.rs:510-541 | A blob is found at exactly the place its location says |
| SegmentWriter.WritePostings | clip/src/segment.rs:543-589 | For every term the FST has it exactly when a live entry has it, and its list there is exactly those ids ascending |
| SegmentWriter.TermIds | clip/src/segment.rs:557-576 | A term's ids across the parts less the dead are the ids of the merged live rows with the term |
| SegmentWriter.MergeTimes | clip/src/segment.rs:591-602 | The time table is sorted and holds each live event of the kind as often as the inputs do |
| SegmentWriter.MergeEvents | clip/src/segment.rs:603-613 | The event table is sorted and holds each live event as often as the inputs do |
| SegmentWriter.MergeDedup | clip/src/segment.rs:614-622 | The dedup table is sorted and lists exactly the live entries under their hashes |
| Segments.TablesOrdered | clip/src/segment.rs:591-622 | A sorted table is in the order of its key: events by id, then time, then kind; times by time, then id; hashes by hash, then id |
| SegmentWriter.MergeTombs | clip/src/segment.rs:623-632 | The tombstones written are exactly those of the inputs that are to be kept, ascending, once each |
| Order.KMerge | clip/src/segment.rs:454-468 | For any number of sorted inputs the output is sorted and has exactly their items |
| Order.Pop | clip/src/segment.rs:459-467 | The heap's step: the least waiting item, its input asked for the next, nothing lost, and the measure falls |
| Order.Filter | clip/src/segment.rs:591-632 | Filtering a sorted merge keeps exactly the items chosen, with their multiplicities, in order |
| Segments.SegBlob | clip/src/segment.rs:166-179 | Some exactly when the segment has the entry, and then its blob; the range check and the binary search lose nothing |
| Segments.IsTomb | clip/src/segment.rs:198-203 | True exactly for a tombstone of the segment |
| Segments.SegEventsOf | clip/src/segment.rs:210-217 | Exactly the id's events, each as often as recorded |
| Segments.DedupIds | clip/src/segment.rs:219-226 | Exactly the ids under the hash |
| Segments.TimeRange | clip/src/segment.rs:237-245 | Exactly the ids of rows in the half-open range |
| Segments.TimeCount | clip/src/segment.rs:229-235 | The number of rows in the half-open range |
| Segments.PostingsOf | clip/src/segment.rs:181-185 | None exactly when no entry has the term, otherwise a reader of exactly their ids |
| PostingLists.RoundTrip | clip/src/segment.rs:247-359 | Parsing bytes that hold the encoding of an ascending list that fits its offsets, and reading all, gives that list, whatever surrounds it and over any number of blocks; the list itself is known only to the proof |
| PostingLists.EncodePostings | clip/src/segment.rs:344-359 | The loop over blocks writes the encoding the readers are proved against |
| PostingLists.Parse | clip/src/segment.rs:258-275 | At an encoded list it succeeds and yields a reader of exactly its ids |
| PostingLists.Postings.Load | clip/src/segment.rs:282-303 | The buffer then holds exactly the block's ids |
| PostingLists.Postings.BlockBelow | clip/src/segment.rs:306-322 | The cached block or the binary search over first ids names the block the predecessor is in, whatever was asked before |
| PostingLists.Postings.Prev | clip/src/segment.rs:306-331 | The greatest id below the bound, or none exactly when there is none, after any earlier calls |
| PostingLists.Postings.All | clip/src/segment.rs:334-341 | Every id, ascending |
| PostingLists.ShortListFits | clip/src/segment.rs:344-359 | A list of few enough ids never overflows the 32-bit offsets |
| Codec.PartitionPoint | clip/src/codec.rs:135-146 | The first row for which a monotone predicate is false |
| IdSets.Prev | clip/src/query.rs:129-178 | For each of the four kinds of set, unions included, the greatest member below the bound |
| IdSets.Leapfrog | clip/src/query.rs:181-200 | The greatest common member in the window, or none exactly when there is none, for any non-empty list of sets; terminates by (candidate, sets still to agree) |
| IdSets.SortBySize | clip/src/lib.rs:1050 | A permutation of the sets, by size |
| IdSets.SizeCounts | clip/src/query.rs:129-178 | The size a set is ordered by is never less than the number of its ids, and for all but a union exactly that |
| IdSets.SameSets | clip/src/lib.rs:1050 | The order the sets are asked in changes no answer |
| Logs.CutRecovers | clip/src/active.rs:97-128 | A log cut at any byte past its header reads as exactly the fold of the records whose frames are whole and is cut where they end, which is the log of those records alone |
| Logs.Active.Open | clip/src/active.rs:97-128 | The log opened mirrors the file up to its first bad frame, the file is cut there, and a bad header is refused with nothing changed |
| Logs.Active.ReadFrames | clip/src/active.rs:110-122 | The loop mirrors exactly the good frames, in order |
| Logs.Active.AppendEntry | clip/src/active.rs:191-210 | The mirror stays what reading the file again gives; a frame longer than a reader accepts is refused with nothing changed |
| Logs.Active.AppendEvent | clip/src/active.rs:212-222 | The frame is in the file and the event in the mirror |
| Logs.Active.AppendTombstone | clip/src/active.rs:224-232 | The frame is in the file and the tombstone in the mirror |
| Logs.Active.Write | clip/src/active.rs:173-187 | The file grows by exactly the frame, byte by byte, and then mirrors the new state |
| Logs.Active.Mirrored | clip/src/active.rs:132-171 | One record applied to the in-memory index, or nothing changed when it does not parse or its id is not above the last |
| Logs.Active.BlobOf | clip/src/active.rs:239-247 | The bytes the location says, exactly for ids of the log |
| Logs.FrameRoundTrip | clip/src/active.rs:263-273 | A frame written is read back whatever follows it |
| Logs.FrameIs | clip/src/active.rs:263-273 | Whatever is read as a frame is byte for byte the frame that is written of its payload: not empty, no longer than MAX_FRAME, with its length and its checksum |
| Logs.TornFrame | clip/src/active.rs:263-273 | A proper prefix of a frame is no frame |
| Logs.FrameAppended | clip/src/active.rs:173-187 | A record written and mirrored is what replaying the file gives |
| Logs.TornIsCut | clip/src/active.rs:97-128 | A record half written is not there after replay |
| LogIndex.EntryKeeps | clip/src/active.rs:132-171 | An entry appended is indexed under exactly its terms and its hash, and no earlier entry moves |
| LogIndex.RecordKeeps | clip/src/active.rs:132-171 | An event or a tombstone changes no entry and no list |
| Records.SealOpens | clip/src/record.rs:33-161 | What a blob was sealed from is what it opens to: id, time, hash, preview and every type with its contents, on the inline and the separate-body branch |
| Records.AadBinds | clip/src/record.rs:51-57 | What is authenticated with a sealed part differs for every other part and every other id |
| Records.Seal | clip/src/record.rs:59-101 | The loops write the sealed form the round trip is about |
| Records.Parse | clip/src/record.rs:33-49 | The cursor reads the blob layout, refusing anything short or long |
| Records.OpenHead | clip/src/record.rs:110-137 | The head opened under the id, parsed in full |
| Records.OpenContents | clip/src/record.rs:139-161 | The contents cut at the sizes of the head; any mismatch is refused |
| Records.BlobRoundTrip | clip/src/record.rs:33-49 | The layout of a blob reads back |
| Records.HeadRoundTrip | clip/src/record.rs:66-88 | The head's plaintext reads back |
| Manifests.ManifestRoundTrip | clip/src/lib.rs:353-396 | What was written as the manifest is what is read back |
| Manifests.Encode | clip/src/lib.rs:354-369 | The loop writes that form |
| Manifests.Decode | clip/src/lib.rs:371-396 | Checksum, magic, version and exact length are checked, and the fields read |
| Codec.VarintRoundTrip | clip/src/codec.rs:18-24 | For every u64 the varint reads back with exact consumption |
| Codec.Reader.Varint | clip/src/codec.rs:81-91 | The shifting loop reads exactly the base-128 number, modulo 2^64, and refuses an eleventh digit or the end |
| Codec.AppendVarint | clip/src/codec.rs:18-24 | The loop writes those digits |
| Codec.BytesRoundTrip | clip/src/codec.rs:27-30 | A length-prefixed string reads back |
| Codec.I64RoundTrip | clip/src/codec.rs:14-16 | Signed numbers read back |
| Codec.Reader.Take | clip/src/codec.rs:93-98 | Exactly `n` bytes, or none when fewer are left |
| Opening.Open | clip/src/lib.rs:496-577 | The history opened is exactly the one the directory holds, every file the manifest does not name is removed, and a crash at any step of opening recovers to it; it fails, with that error and nothing changed, exactly when the directory holds none |
| Opening.Sweep | clip/src/lib.rs:543-555 | Afterwards exactly the files the manifest names are left, so later numbers collide with nothing, and the history is untouched |
| Opening.OpenLog | clip/src/lib.rs:542 | The log with its torn tail cut off; the directory then holds the history found |
| Opening.Begin | clip/src/lib.rs:519-532 | A new history is empty with next id 1, and every crash before the manifest is in place is no history yet |
| Opening.NextIdOf | clip/src/lib.rs:556-564 | The next id is above the manifest's, every segment's and the log's |
| Recovery.OthersDoNotMatter | clip/src/lib.rs:496-577 | What the manifest does not name is not part of the history |
| Recovery.FrameStates | clip/src/active.rs:173-187 | While a frame is being written the directory holds the old history, and from its last byte on the new one |
| Steps.ReplaceManifest | clip/src/lib.rs:409-422 | Written aside and renamed: before the rename the old history, after it the new one |
| Steps.SealFiles | clip/src/lib.rs:1115-1145 | Stopping after any single file step of a seal leaves the same history, and exactly the files of the new manifest are there at the end |
| Steps.MergeFiles | clip/src/lib.rs:1209-1251 | The same for a merge |
| Steps.RecordSteps | clip/src/active.rs:173-187 | Every byte of a record's frame on the way recovers to before or after |
| Changes.EntryWritten | clip/src/lib.rs:621-664 | Reading the log with the entry's frame gives a sound history with exactly that new item and the next id one higher |
| Changes.EventWritten | clip/src/lib.rs:759-764 | The same for an event |
| Changes.TombWritten | clip/src/lib.rs:766-774 | The same for a tombstone |
| Runs.DeletedForGood | clip/src/lib.rs:766-774 | Over any run of calls, crashes and reopenings an id whose deletion was acknowledged is in no later state |
| Runs.NewIdsIncrease | clip/src/lib.rs:556-564 | Acknowledged new ids strictly increase over the run and were never an entry's before |
| Runs.RunFollows | clip/src/lib.rs:490-1254 | Any two states of a run: next ids do not fall and no id below the earlier next id appears anew |
| Runs.StepFollows | clip/src/lib.rs:490-1254 | The same for one act as its calls and crashes define it, from the effect of each, a crash half-way included |
| Runs.CrashReopens | clip/src/lib.rs:496-577 | After any file step of any act the directory opens, and what it opens as is a step of a run: the history before, the one after, or for an import or an edit one with part of its events |
| Runs.ImportCrashReopens | clip/src/lib.rs:691-706 | A run stopped inside an import differs in that entry only, which has lost nothing if it was there |
| Runs.EditCrashReopens | clip/src/lib.rs:712-738 | A run stopped inside an edit has the old entry whole or the new one whole, and every other entry as it was |
| Runs.Perform | clip/src/lib.rs:490-1254 | Every public call is the act asked for, with the same arguments, answered as a run may answer it; every file state on the way opens as a step of a run; no tombstone is dropped that still hides something |
| Scripts.Perform | clip/src/lib.rs:490-1254 | One call, or one stopped after any number of its file steps and the history opened again from the disk: done exactly when its arguments and the numbers left are in range, it answers that call and is a step of a run; not done, nothing changed |
| Scripts.Play | clip/src/lib.rs:490-1254 | Any script of calls, crashes within calls and reopenings, from any directory that opens: every deed is answered in turn up to the first that the numbers left do not allow; what was answered is a run from what the directory held to what the history returned holds; an entry whose deletion was acknowledged is never told of again, and new ids are told in strictly ascending order |
| Scripts.NeverToldAgain | clip/src/lib.rs:766-774 | In any run, after an acknowledged deletion no answer (appended again, copied, pasted, edited, deleted) speaks of that entry |
| Brokers.Broker.Set | clip/src/broker.rs:151-207 | Refused exactly when its refusal says so, and then nothing changes; accepted it places exactly the contents under a fresh revision and the byte counts stay the sums |
| Brokers.RefusalMeans | clip/src/broker.rs:151-207 | Accepted exactly when the instance is known, the contents are well formed, and the instance's and the total budget hold with them in place of what is replaced; refused as unknown, as of wrong types or as exhausted exactly when that is what is wrong first, and otherwise for the limit |
| Brokers.MimeIs | clip/src/broker.rs:170-177 | A type may be offered exactly if it has 1 to 256 bytes, no control character, and does not begin with "application/x-cellward-clip-" |
| Brokers.WeighedFor | clip/src/broker.rs:162-185 | The types are at fault exactly if some type is invalid or repeated before the memory of those ahead of it overflows; otherwise the memory is |
| Brokers.MemoryAdds | clip/src/broker.rs:180-191 | Name, data and spare capacity of each content count once, and an instance's size is both its offers' |
| Brokers.WeighedIs | clip/src/broker.rs:162-185 | Contents are weighed exactly when types are valid and distinct, to the sum of their memory |
| Brokers.Broker.Read | clip/src/broker.rs:240-262 | What is served at a revision is what the one call that made that revision put there for this instance and selection; anything else is refused as the code refuses it |
| Brokers.Broker.TransferExplicit | clip/src/broker.rs:265-279 | Only the current offer of the source is copied: unknown or stale as they are, else refused exactly by the refusal of setting the copies at the target, else placed there under a fresh revision with every other selection as it was, and the revision records where it came from; a refusal changes nothing |
| Brokers.RootIs | clip/src/broker.rs:265-279 | Whatever is served goes back through explicit transfers to one `set` with the same data |
| Brokers.GoneForGood | clip/src/broker.rs:125-219 | Over any run an offer replaced, cleared or removed is never current again |
| Brokers.RunAdvances | clip/src/broker.rs:125-219 | Revisions only grow, and every offer current later is newer or was current before |
| BrokerRuns.Call | clip/src/broker.rs:125-279 | Each call answers, and leaves the broker, exactly as a function of what was there says: who is registered, removed, set, cleared, listed, read or transferred, and every refusal |
| BrokerRuns.Play | clip/src/broker.rs:125-279 | Any sequence of broker calls from a new broker: every answer and every state is what that function gives from the state before; the states are a run, what is served at a revision is always what its one maker put there, and an offer once served and then refused as gone is never served again |
| BrokerRuns.StaysGone | clip/src/broker.rs:240-262 | In any run, an offer read once and later refused as stale or of no instance is refused ever after, for whatever type |
| Brokers.Broker.Register | clip/src/broker.rs:130-139 | A fresh instance with empty selections, or the limit or exhaustion with nothing changed |
| Brokers.Broker.Remove | clip/src/broker.rs:141-148 | Its buffers are given back and every other instance is untouched |
| Brokers.Broker.Clear | clip/src/broker.rs:209-219 | Only that selection is emptied |
| Brokers.Broker.Types | clip/src/broker.rs:221-238 | None exactly when nothing is offered; else the current revision with, in their order, exactly the types that a read at that revision would serve |
| Brokers.DataOfIs | clip/src/broker.rs:252-262 | Types being distinct, reading one gives its own content |
| Wire.RequestRoundTrip | shared/clipboard_client.rs:163-280 | Every request the client may send decodes on the server to that request |
| Wire.TypesDecode | shared/clipboard_client.rs:420-485 | The server's types answer decodes to the revision and types |
| Wire.SetDecodes | shared/clipboard_client.rs:420-485 | The answer to a set decodes to its revision |
| Wire.DataDecodes | shared/clipboard_client.rs:420-485 | The answer to a read decodes to its bytes, and to nothing if they are more than the client takes at once |
| Wire.ErrorDecodes | shared/clipboard_client.rs:420-485 | An error answer decodes to a rejection with the code of that error, 1 to 5 |
| Wire.RestDecodes | shared/clipboard_client.rs:420-485 | The clear, capability and empty-selection answers decode to themselves |
| Transports.Transparent | clip/src/broker_transport.rs:374-499 | For every request the client may send, under any budgets: the server carries out that request, and the client ends up with exactly what the direct broker call returned, or with nothing exactly when that was more data than it takes at once, which cannot be under the default budget of an instance |
| Transports.RoomForTheAnswer | clip/src/broker_transport.rs:374-406 | A request that changes a selection has room for its answer before it is carried out |
| Transports.Dispatch | clip/src/broker_transport.rs:374-499 | The state and the framed answer are those of the direct call, and with no room to answer nothing is carried out |
| Transports.Run | clip/src/broker_transport.rs:378-498 | A body's request carried out on the broker, or the error it is answered with |
| Transports.Asking | clip/src/broker_transport.rs:379-481 | The decoder reads a body as the request it encodes or refuses it |
| Peers.Peer.Step | clip/src/broker_transport.rs:223-325 | One turn from any state: the byte counts follow the buffers exactly on every exit, bodies carried out are whole frames of what was received in order, bytes sent are a prefix of the answers in order, each the answer to its request from the broker as it was then; it moves bytes unless the stream is not ready, leaves no whole request waiting, and its stream is then not over. The deadline is TIMEOUT after the first byte of a frame, unmoved until the last byte of its answer, and there is none otherwise; at or past it nothing is done and the peer ends. It ends for nothing else but the end or a failure of the stream, a length that is not allowed or has no room, or an answer without room, these exactly; with nothing in hand it is never late |
| Peers.NeverLong | clip/src/broker_transport.rs:230-248 | Over any turns of a peer that is kept: from the turn at which the first byte of a frame came to the last byte of its answer the deadline is that time plus TIMEOUT, and no turn that keeps it is at or after it |
| Peers.Peer.IdleIs | clip/src/broker_transport.rs:212-325 | Nothing is in hand exactly when all received are whole frames carried out and all answers are sent, and exactly then there is no deadline |
| Peers.RoomIs | clip/src/broker_transport.rs:254-255 | The room is the most that keeps both to what the instance has left and, with what is taken, to MAX_IO |
| Peers.Peer.ReadHeader | clip/src/broker_transport.rs:234-252 | The length gathered across any chunks; it closes exactly at the end or a failure of the stream; the first byte sets the deadline and no later one moves it |
| Peers.Peer.Reserve | clip/src/broker_transport.rs:253-269 | Room is given exactly if the length is from 2 to MAX_FRAME and what is reserved for it fits what the instance has left and, with all that is taken, MAX_IO; refused, nothing is taken |
| Peers.Peer.ReadBody | clip/src/broker_transport.rs:270-288 | At most a quantum of the body |
| Peers.Peer.Serve | clip/src/broker_transport.rs:289-300 | The whole body is carried out once, its buffer released and its answer begun, within both budgets |
| Peers.Peer.WriteOut | clip/src/broker_transport.rs:302-324 | At most a quantum of the answer; after the last byte, and only then, the buffer is released, there is no deadline, and the next frame may begin; it closes exactly if the stream fails |
| Peers.FramesPrefix | clip/src/broker_transport.rs:223-325 | However the bytes were cut, the bodies carried out are the first of those asked |
| Peers.Exchange | clip/src/broker_transport.rs:223-325 | Over a stream that loses and reorders nothing: the bodies carried out are the first of those asked, the answers read whole at the other end are the first answers given, and the n-th of them answers the n-th body from the broker as it was when that was carried out |
| Scheduling.Transport.Tick | clip/src/broker_transport.rs:159-181 | Every peer has exactly one turn, in order; those left are exactly those whose turn did not end them, each that went being at or past TIMEOUT from the first byte of its frame, or at the end of its stream, or without room for its frame or its answer, and one with nothing in hand only for the last two; each that stays has a stream that is not over and its deadline right; the broker only goes on (nothing recorded changes, no offer comes back); afterwards and between turns `io_bytes` is the sum of all buffers and at most MAX_IO, and each instance's sum is at most MAX_INSTANCE_IO |
| Scheduling.Transport.StepPeer | clip/src/broker_transport.rs:164-180 | The counts hold after one peer's turn however it ended, with the room that the counts leave; a peer that ends is taken out with its buffers, other instances' sums unchanged |
| Scheduling.Transport.Remove | clip/src/broker_transport.rs:82-93 | Exactly the instance's peers and selections go, with their buffers |
| Scheduling.Transport.Attach | clip/src/broker_transport.rs:70-80 | Accepted exactly for a known instance below the number of peers |
| Clients.Client.Start | shared/clipboard_client.rs:163-281 | Refused exactly as a function of the client and the request says: closed, busy, not sendable, or without room, in that order; accepted the whole framed request is to be sent and the deadline set |
| Clients.Client.Tick | shared/clipboard_client.rs:283-301 | What the bytes received since the request come to decides the turn: nothing is told only while the frame is not whole, an answer exactly of a whole frame of a length taken in that decodes, and it is that; invalid only for the length, for more reserved than FRAME or for a whole frame that does not decode; out of memory only if nothing is reserved; any other failure is the stream's or the time's. A failure ends the request and closes the client, and an end, a break or a refusal to take bytes is told as what it was; past the deadline it is a timeout and nothing is tried |
| Clients.Client.Step | shared/clipboard_client.rs:313-379 | The outcome is the verdict on the bytes received since the request, as in `Tick`: an answer exactly of one whole frame received after the whole request was sent, and each failure only for its cause; short of an answer it stops only when the stream is not ready or a whole quantum moved; it is a timeout exactly past the deadline, with nothing tried |
| Clients.WholeIsTold | shared/clipboard_client.rs:313-379 | A whole frame of a length that is taken in (1 to FRAME, and no more reserved) is told as what its body decodes to, or as invalid if it does not, unless the time is up or the stream fails |
| Exchanges.Play | clip/src/broker_transport.rs:223-499 | A client and a peer from a new connection on, any acts: begin a request, a turn of either, bytes carried in any pieces, ends and failures, others calling the broker. Each act does what its step says: which begins are refused and why, timeouts exactly at the deadline, bytes neither lost nor made up, at most one request carried out a turn; once the whole of the peer's next answer is received, in time, of a length the client takes in and with its stream not over, the client is told what the direct broker call came to (or, of more data than it takes, that it is invalid); the requests are in order those begun and not refused, what is told is in order what the turns answered, the k-th of it is what the direct broker call for the k-th request came to in the state it was carried out in, that request left the state the direct call leaves, and those states are a run of the broker |
| Exchanges.Line.Do | clip/src/broker_transport.rs:223-499 | One act keeps what joins the two ends and makes of them what its step says |
| Exchanges.LeftTruly | clip/src/broker_transport.rs:374-499 | A request carried out leaves the broker exactly as the direct call of the broker does, or as it was when there is no room for its answer |
| Exchanges.Line.ToldTruly | clip/src/broker_transport.rs:223-499 | From the state of both ends alone: what was carried out is a first part of what was asked, each request once and in order, each left the broker as the direct call does, and every answer told is that of the direct call at its time |
| Exchanges.Line.ClientTurn | shared/clipboard_client.rs:283-379 | A turn of the client keeps what joins the two ends; nothing else is touched, it times out exactly past the deadline, is told nothing only while the answer's frame is not whole, an answer exactly of a whole frame that can be read, a failure only for what is wrong with the frame, the memory or the stream; and the whole answer the peer gave, received in time, is told as what the direct call came to |
| Exchanges.DirectlyIs | clip/src/broker_transport.rs:374-499 | What the server answers is the broker's own answer to the direct call, translated: revisions, types, data if there is room for them, and each error as its code |
| Exchanges.Line.PeerTurn | clip/src/broker_transport.rs:223-325 | A turn of the peer keeps it, whatever room it has: at most one request more is carried out, on the broker as it was, and nothing else is done to the broker; it ends at its deadline, which is TIMEOUT after the first byte of the frame in hand, and otherwise only with its stream or for want of room |
| Clients.Decode | shared/clipboard_client.rs:420-485 | The decoder refuses every malformed or overlong answer and reads the rest exactly |
| Clients.Measure | shared/clipboard_client.rs:185-235 | Some exactly when the request may be sent, and then the length of its body |
| Clients.PutRequest | shared/clipboard_client.rs:244-277 | The frame written is the request's |
| Registration.Interleaved | rust/src/bus_filter.rs:845-1118 | For every script of what the program, the bus and the two threads do, in any order, sends that fail included: the connection is, after each happening, exactly what that makes of it, and of the end and of every step all that `Registration.EveryRun` says holds |
| Registration.Happen | rust/src/bus_filter.rs:1505-1608 | One thing happening, if it can, makes of the whole connection (what is under the lock, where both threads are, and all that was read, let up, answered and passed down) exactly what the step function says |
| Registration.EveryRun | rust/src/bus_filter.rs:845-980 | After any script: of the program's, no call to "org.freedesktop.portal.Desktop" or to a name beginning with a colon and nothing with our serial went up while ours was unsettled; its messages went up in order; ours, a call to that name, at most once; at most one reply was withheld, and while ours was unsettled exactly the answer to it; every other answer passed down came as one; the portal is whoever answered our call. And at every step, by the stages themselves: what goes up then is ours or neither such a call nor of our serial, and a message is held exactly if it is one of these, and as long |
| Registration.MayReachIs | rust/src/bus_filter.rs:1120-1129 | What is taken to reach the portal is exactly a call to "org.freedesktop.portal.Desktop" or to a name beginning with a colon |
| Registration.NextKeeps | rust/src/bus_filter.rs:845-1118 | The invariant behind that, kept by every happening |
| Registration.AfterGoesOn | rust/src/bus_filter.rs:859-924 | Between any two moments of a script nothing read, let up, answered or passed down is taken back, and a portal once named stays |
| Registration.WaitsForNobody | rust/src/bus_filter.rs:905-914 | After any script in which the bus side said it went: the reader waits exactly when that was before the first message was taken, that was a Hello, and it still went up |
| Registration.WaitsForever | rust/src/bus_filter.rs:845-853 | And then it waits whatever happens after |
| Registration.LeftWaiting | rust/src/bus_filter.rs:1229-1247 | The script in which it does: the bus side goes, the Hello is taken and goes up, the sockets are shut; with the last two the other way round the Hello cannot go up and the reader ends |
| Registration.Connection.Reply | rust/src/bus_filter.rs:859-903 | A reply is withheld exactly when it answers the call we wait for, any other goes down if it can be sent, and only the answer to our own call while unsettled sets the portal |
| Registration.Connection.Settle | rust/src/bus_filter.rs:859-903 | What a reply makes of the stage, the call waited for and the portal, and whether it is ours to keep |
| Registration.Connection.MoveOn | rust/src/bus_filter.rs:1069-1100 | After a named Hello ours is next under its own serial; otherwise it is given up |
| Registration.Connection.PassRegister | rust/src/bus_filter.rs:1101-1118 | Exactly our call goes up, or the reader ends |
| Registration.Connection.PassHello | rust/src/bus_filter.rs:1555-1560 | The Hello goes up as it is and its answer is waited for, or, the sockets being shut or the send failing, the reader ends |
| Registration.Connection.ReadFirst | rust/src/bus_filter.rs:1542-1557 | Only a Hello that wants its answer begins a registered connection |
| Registration.Connection.ReadNext | rust/src/bus_filter.rs:1536-1567 | A call to "org.freedesktop.portal.Desktop" or to a name beginning with a colon, and a message with the serial waited for, is held while ours is unsettled; any other goes on to be decided |
| Registration.Connection.Decide | rust/src/bus_filter.rs:1562-1607 | What goes up while ours is unsettled is neither a call to the portal's name or a unique name nor of our serial |
| Registration.Connection.BusGone | rust/src/bus_filter.rs:905-914 | The registration is over unless it was done; nothing else changes |
| Registration.Connection.ProgramGone | rust/src/bus_filter.rs:916-924 | A registration the program no longer waits for is given up; nothing else changes |
| Registration.RegisterSerialIsOurs | rust/src/bus_filter.rs:1022-1028 | Our serial is not the Hello's, not zero, and in the range a client may use |
| Authentication.Auth.Feed | rust/src/bus_filter.rs:1313-1345 | Fed in any chunks the outcome is that of all the bytes read line by line: refused, so far passed on, or begun at the same byte |
| Authentication.LineMeans | rust/src/bus_filter.rs:1348-1360 | A line is taken exactly if it begins with A to Z and every byte is from the space to 127, and is the last exactly if it is BEGIN, alone or before a space or a tab |
| Authentication.ReadTheSameBehind | rust/src/bus_filter.rs:1304-1360 | Whatever reads the bytes passed on sees the same lines and begins the messages at the same byte |
| Authentication.Stays | rust/src/bus_filter.rs:1313-1345 | A verdict reached does not change with more bytes |

## Left out

Deliberately narrower contracts:

- Histories.History.Append: asks for room (`Room`: next id and file numbers below 2^64, segments below 2^32, ten times the stored entries below 2^32), since the code's own counters and the 32-bit offsets of posting lists wrap there unchecked; so do AppendNew, RecordCopy, RecordPaste, Delete, Import, Replace, SealLog, Seal, MaybeSeal, Merge, MergeTiers and Compact
- Histories.History.Query: asks for a next id below 2^64 and an `around` window other than the least i64, whose absolute value does not exist; the error is `BadPattern` without its text
- Histories.History.Merge: takes the range from `lo` to the end with an empty log, which is what every caller passes
- Histories.History.AppendNew: the preview is an uninterpreted function of the text, and the sealing nonces are parameters
- Opening.Open: is stated for a directory only this program wrote in (what it holds, if it parses, is sound), and a missing or damaged segment, log or manifest is one error
- SegmentWriter.Write: gathers a term's ids part by part with one list of all terms, not by the sorted array of (term, part, offset) that the code groups
- Segments.SegBlob: the tables are rows, the FST a map, and the header with its checksum and offsets is not modelled, so damage inside a segment file is not
- Logs.CutRecovers: speaks of a lost tail; blocks of the log lost in the middle by the system are not modelled
- Transports.Dispatch: opcodes 6, 7 and 8 (capture epochs) are answered as unknown
- Brokers.Broker.TransferExplicit: a clone reserves exactly its length
- Registration.Connection.Decide: what the door, the refusals, the tray and the rewriting make of a message is one nondeterministic choice: it goes up as it is or not at all

Not modelled:

- Cryptography, CRC, FST and regex internals, memory maps and buffered writing
- File modes, locks, `O_NOFOLLOW`, key files and migration of the store
- Failed system calls other than a stop between or within file steps; `Options.sync` and pages lost by the system
- `stats`, `summary` and the text of errors, which only report
- The cost of a search, beyond that its loops end and that times are gathered or checked by their number
- Paste and capture epochs of the broker (`clip/src/broker/paste.rs` is not part of this model), erasure of memory
- The client's memory failure inside decoding, and its capture requests
- Descriptors passed on the bus, process ids, namespaces, poll loops, thread start and wake-ups
- A filter whose configuration names no id for a program: it is taken here as a filter that does not register
- Bus message bytes (the wire format): a message here is its kind, serials, destination, sender and two flags; the bus is taken to answer only what was sent on the connection
- `rust/src/bridge.rs`, `rust/src/broker.rs`, `rust/src/camask.rs`, `rust/src/build.rs`, the tray, translations and the recorder
