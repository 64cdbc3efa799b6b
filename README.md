# Party-member evaluation and election: a Dafny model

The application runs a two-phase vote among the members of a party cell.

- **Phase 1 (quality rating).** Each voter rates every Phase-1 candidate on a three-valued scale: *Không hoàn thành*, *Hoàn thành* or *Hoàn thành tốt*.
- **Phase 2 (excellence ballot).** Each voter picks at most `maxExcellentVotes` Phase-2 candidates.

All state lives in one replicated document, `AppData`. It holds the roster of voters, the two candidate lists, the two ballot lists and the configuration. An administrator imports the roster and candidate lists from spreadsheets, opens and closes the phases, and reads the tallies. A voter logs in with a citizen id (cccd) or a student id (mssv) and is routed to the phase they still have to vote in.

The model covers the following parts of the code.

- **Store** (`storage.dfy`, `services/storage.ts`).
  - A `Store` class holds the in-memory document and its two persistence backends: a remote replicated document and browser-local storage.
  - It models saving and loading, the load-time merges that fill missing fields from the defaults, and the four resets.
  - It models the two ballot-casting operations on both backends. On the local backend, the document is edited and saved. On the remote backend, a transaction is modelled as one atomic function on the remote document.
  - The replace-by-voter properties of casting are proved in `storage_lemmas.dfy`.
- **Records** (`types.dfy`, `types.ts`). The record types and the rating enum.
- **Administrator page** (`admin.dfy`, `pages/Admin.tsx`).
  - The roster re-import merge and the candidate imports.
  - Configuration updates.
  - Phase-1 tallies and the Phase-2 ranking, which is a stable sort by vote count, with its percentage denominators.
  - The roster status filter and the per-voter ballot history.
- **Voter page** (`voter.dfy`, `pages/Voter.tsx`).
  - Login lookup and phase routing.
  - The Phase-1 rating map: restored from earlier ballots, auto-filled on submit, quick-filled for the visible cards, and submitted as an array.
  - The Phase-2 selection with its cap.
  - The candidate lists the page shows and the two view toggles.
  - The page state is a `Session` class.
- **Spreadsheet mapping** (`excel.dfy`, `services/excel.ts`).
  - Header matching (`mapKeys`), written as a loop and proved against a recursive specification.
  - The per-row rules of the three readers: required fields, trimming and defaults.
- **Shared modules.**
  - `text.dfy`: the JavaScript string primitives the code relies on (`trim`, `toLowerCase`, `includes`, `String(n)`).
  - `seqs.dfy`: `filter`, `findIndex` and `map(...).filter(Boolean)` with their facts.
  - `wrappers.dfy`: an `Option` type.

JavaScript semantics are written out where they matter:

- An optional voted flag counts as voted only when it is present and true.
- `x || default` takes the default for `undefined`, `''` and `0`.
- `Array.prototype.sort` is stable.
- A `Record<string, VoteLevel1>` is the sequence of its entries in insertion order.
- Ids are trimmed (`String(x).trim()`) before they are compared in the store, the roster merge, login and the tallies. The ballot history, the ballot restore and the Phase-2 selection compare ids exactly, as the code does.

## Model

| member | source | states |
|---|---|---|
| Storage.Normalize | services/storage.ts:55 | the normalised id has no surrounding white space, and an already trimmed id is unchanged |
| Storage.NormalizeStrips | services/storage.ts:55 | only white space at the two ends is removed: the id is its normalised form with white space before and after |
| Storage.DefaultsComplete | services/storage.ts:20-45 | the default display maps give every one of the eleven toggles of each phase a value |
| Storage.FindVoter | services/storage.ts:274 | the index is the first voter whose normalised cccd equals the id; none is found exactly when no voter matches |
| Storage.CloudMerge | services/storage.ts:107-115 | after a remote load both display maps are complete, and every stored display value overrides the default |
| Storage.AppendBallotsP1 | services/storage.ts:279-281 | the push loop appends one ballot per input, in input order, after the kept ballots |
| Storage.AppendBallotsP2 | services/storage.ts:323-325 | the push loop appends one selection record per input, in order, after the kept ones |
| Storage.BallotsP1 | services/storage.ts:280 | one record per input entry, in order, carrying the voter id, the normalised candidate id and the level |
| Storage.BallotsP2 | services/storage.ts:324 | one record per selected id, in order, carrying the voter id and the normalised candidate id |
| Storage.ClearPhase1 | services/storage.ts:208-214 | resetPhase1 empties the Phase-1 candidates and ballots, clears every Phase-1 flag, and keeps the roster size, Phase 2 and the configuration |
| Storage.ClearPhase2 | services/storage.ts:216-222 | resetPhase2 empties the Phase-2 candidates and ballots, clears every Phase-2 flag, and keeps the roster size, Phase 1 and the configuration |
| Storage.ClearVoters | services/storage.ts:224-230 | resetVotersOnly empties the roster and both ballot lists, and keeps both candidate lists and the configuration |
| Storage.Store.constructor | services/storage.ts:132-135 | without a cloud backend the store starts from the local copy merged over the defaults; with one it starts from the defaults, not yet connected |
| Storage.Store.HasData | services/storage.ts:154-156 | true exactly when the roster holds a voter |
| Storage.Store.GetDB | services/storage.ts:159-161 | the copy handed out equals the in-memory document |
| Storage.Store.SaveDB | services/storage.ts:164-181 | the in-memory document becomes the data at once; the remote document or the local copy receives it; the result is false only for a failed remote write |
| Storage.Store.OnRemoteValue | services/storage.ts:103-122 | a non-null remote document replaces the in-memory one through the cloud merge; a null one leaves it; the store is connected afterwards |
| Storage.Store.ResetDB | services/storage.ts:200-205 | the saved document is exactly the initial data |
| Storage.Store.ResetPhase1 | services/storage.ts:208-214 | the saved document is the Phase-1 reset of the previous one |
| Storage.Store.ResetPhase2 | services/storage.ts:216-222 | the saved document is the Phase-2 reset of the previous one |
| Storage.Store.ResetVotersOnly | services/storage.ts:224-230 | the saved document is the roster reset of the previous one |
| Storage.Store.CastVoteP1 | services/storage.ts:234-284 | remote: the transaction function is applied when the backend succeeds, and its outcome is returned. Local: an unknown voter gives false with nothing changed; otherwise the edited document is saved and true is returned |
| Storage.Store.CastVoteP2 | services/storage.ts:286-328 | as castVoteP1, for the Phase-2 selection |
| StorageLemmas.WithoutVoterP1Drops | services/storage.ts:278 | after dropping a voter's ballots none of theirs remain, and dropping again changes nothing |
| StorageLemmas.WithoutVoterP2Drops | services/storage.ts:322 | the same for Phase-2 ballots |
| StorageLemmas.RewriteP1 | services/storage.ts:278-281 | after the drop and append, the voter's ballots are exactly the new ones and everyone else's are the old ones, in order |
| StorageLemmas.RewriteP2 | services/storage.ts:322-325 | the same for Phase-2 ballots |
| StorageLemmas.CastUnknownVoter | services/storage.ts:273-275 | the local cast (either phase) fails exactly when no voter's normalised cccd matches the normalised id |
| StorageLemmas.CastP1Effect | services/storage.ts:273-281 | a successful Phase-1 cast sets the flag of the first matching voter and changes nothing else in the roster; that voter's ballots become exactly the input, in order, with trimmed ids; other ballots keep their order; Phase 2, candidates and configuration are unchanged |
| StorageLemmas.CastP2Effect | services/storage.ts:317-325 | the same for a Phase-2 cast |
| StorageLemmas.CastP1Replaces | services/storage.ts:278 | after two Phase-1 casts by one voter, only the second cast's ballots are theirs |
| StorageLemmas.CastP2Replaces | services/storage.ts:322 | after two Phase-2 casts by one voter, only the second cast's selections are theirs |
| StorageLemmas.BlankBallot | services/storage.ts:321-325 | an empty Phase-2 selection marks the voter as voted and leaves them no Phase-2 ballots |
| StorageLemmas.CastP1TxnEffect | services/storage.ts:240-265 | the transaction leaves a null document null. On a document, even one whose ballot list is absent, the id's ballots become exactly the new ones and the other ballots are kept. The first matching voter alone gets the Phase-1 flag, and the roster is untouched when no voter matches. Phase 2, both candidate lists and the configuration are kept |
| StorageLemmas.CastP2TxnEffect | services/storage.ts:291-310 | the same for the Phase-2 transaction: ballots replaced, the first matching voter alone flagged, Phase 1, candidates and configuration kept |
| StorageLemmas.CastPathsAgree | services/storage.ts:240-282 | for a known voter the remote transaction applied to the stored document gives the stored form of the local result |
| StorageLemmas.ResetIsolation | services/storage.ts:208-222 | each phase reset clears its own flags and data and keeps every voter's other-phase flag, the cccd and the other phase's data |
| StorageLemmas.CloudRoundTrip | services/storage.ts:107-115 | a document with complete display maps comes back unchanged through a remote save and load |
| StorageLemmas.CloudMergeDefaults | services/storage.ts:107-115 | missing voters and ballot lists become empty, a missing configuration is the default one, and a missing display field of either phase takes its default |
| StorageLemmas.LocalRoundTrip | services/storage.ts:138-147 | what the local backend saves it loads back unchanged |
| StorageLemmas.LocalLoadKeepsPartialDisplay | services/storage.ts:143 | the local load does not complete a stored configuration's display maps |
| Types.LevelsAreThreeDistinct | types.ts:1-5 | the rating has exactly three values, with pairwise distinct stored strings |
| AdminPage.MergeOne | pages/Admin.tsx:99-100 | one imported voter differs from the import only in its two flags; it takes them from the first roster voter with the same trimmed cccd, and is kept as imported when no roster voter matches |
| AdminPage.MergeRoster | pages/Admin.tsx:98-101 | the merged roster is the import, in order and of the same length. A voter whose trimmed cccd matches an existing one takes both flags from the first match and everything else from the import. An unmatched voter is taken as imported |
| AdminPage.MergeRosterSameRoster | pages/Admin.tsx:98-101 | re-importing a roster with distinct ids over itself keeps every voter and flag |
| AdminPage.ImportVoters | pages/Admin.tsx:95-108 | the saved document is the previous one with the merged roster |
| AdminPage.ImportCandidatesP1 | pages/Admin.tsx:103-108 | the saved document is the previous one with the Phase-1 candidates replaced |
| AdminPage.ImportCandidatesP2 | pages/Admin.tsx:105-108 | the saved document is the previous one with the Phase-2 candidates replaced |
| AdminPage.ApplyConfig | pages/Admin.tsx:59 | only the updated configuration field changes |
| AdminPage.ApplyConfigLastWins | pages/Admin.tsx:57-60 | two updates of the same key leave only the second value |
| AdminPage.MaxVotesInput | pages/Admin.tsx:642 | the cap entered is never 0: a parsed non-zero number is kept, and an unparsable or zero entry becomes 1 |
| AdminPage.UpdateConfig | pages/Admin.tsx:57-61 | the saved document differs from the previous one only in the updated configuration field |
| AdminPage.UpdateP1Display | pages/Admin.tsx:63-67 | the saved document differs only in one Phase-1 display toggle |
| AdminPage.UpdateP2Display | pages/Admin.tsx:69-73 | the saved document differs only in one Phase-2 display toggle |
| AdminPage.LevelsPartition | pages/Admin.tsx:150-153 | the three level counts of any ballot list add up to its length |
| AdminPage.GetP1Stats | pages/Admin.tsx:147-155 | kht + ht + htt == total, where total counts the ballots whose trimmed candidate id is the trimmed candidate id |
| AdminPage.P1Denominator | pages/Admin.tsx:585 | the Phase-1 percentage denominator is the total, or 1 when there are no ballots |
| AdminPage.Tally | pages/Admin.tsx:618-620 | each candidate, in list order, with the number of Phase-2 ballots naming its trimmed id |
| AdminPage.InsertDescSorted | pages/Admin.tsx:621 | inserting into a list sorted by non-increasing votes keeps it sorted |
| AdminPage.SortByVotes | pages/Admin.tsx:621 | the sort yields a permutation of its input in non-increasing vote order |
| AdminPage.SortStable | pages/Admin.tsx:621 | candidates with equal counts keep their list order |
| AdminPage.RankP2 | pages/Admin.tsx:618-621 | the ranking is a permutation of the tallied candidates, sorted non-increasingly by votes |
| AdminPage.RankP2Candidates | pages/Admin.tsx:618-621 | a candidate is ranked iff it is listed, and each carries the number of ballots naming it |
| AdminPage.SearchRanking | pages/Admin.tsx:623 | the search keeps, in order, exactly the ranked candidates whose lowercased name contains the lowercased term |
| AdminPage.SearchRankingAsWritten | pages/Admin.tsx:623 | on the raw name values, the search fails exactly when some name is not a string |
| AdminPage.SearchRankingAsWrittenAgrees | pages/Admin.tsx:623 | when every raw name is the candidate's string name, the search as written gives SearchRanking's list |
| AdminPage.NamelessCandidateBreaksSearch | pages/Admin.tsx:623 | a Phase-2 row with a cccd and no name cell is kept, and the search as written then fails for every term |
| AdminPage.NamelessCandidateListed | pages/Admin.tsx:623 | in the model that candidate has the empty name and is listed exactly when the search box is empty |
| AdminPage.SearchCandidatesP1 | pages/Admin.tsx:476-479 | the Phase-1 tab lists, in order, exactly the candidates whose lowercased name or student id contains the lowercased term |
| AdminPage.P2Denominator | pages/Admin.tsx:736 | the Phase-2 percentage denominator is the number of voters who voted Phase 2, or 1 when nobody has |
| AdminPage.FilterVoters | pages/Admin.tsx:283-294 | the table is a subsequence of the roster holding exactly the voters that match the search and pass the status filter |
| AdminPage.FilterVotersEmptySearch | pages/Admin.tsx:283-294 | an empty search with no status filter lists the whole roster |
| AdminPage.FilterVotersSplit | pages/Admin.tsx:289-292 | for one search, the "voted" and "not voted" views of a phase add up to the unfiltered view |
| AdminPage.CandidateNameP1 | pages/Admin.tsx:232-233 | the name of the first candidate with that exact id when it is non-empty, otherwise the id itself |
| AdminPage.CandidateNameP2 | pages/Admin.tsx:236-237 | the same for Phase-2 candidates |
| AdminPage.VoterHistoryP1 | pages/Admin.tsx:231-234 | one entry per Phase-1 ballot with the voter's exact cccd, in order, with its level and the name CandidateNameP1 gives for its candidate id |
| AdminPage.VoterHistoryP2 | pages/Admin.tsx:235-238 | one entry per Phase-2 ballot with the voter's exact cccd, in order, with the name CandidateNameP2 gives for its candidate id |
| VoterPage.Get | pages/Voter.tsx:198 | a rating is found exactly when an entry has that candidate id, and it is that entry's level |
| VoterPage.Put | pages/Voter.tsx:666-668 | writing a rating sets that key and leaves every other key's rating unchanged; a new key adds one entry |
| VoterPage.PutDistinct | pages/Voter.tsx:139 | writing a rating keeps the map's keys distinct |
| VoterPage.LastLevel | pages/Voter.tsx:139 | the level of the last record for a candidate, present exactly when some record names it |
| VoterPage.RestoreP1 | pages/Voter.tsx:137-140 | the restored map has one entry per candidate among the voter's earlier ballots, holding the level of the latest one |
| VoterPage.RestoreP2 | pages/Voter.tsx:142-143 | the restored selection is the candidate ids of the voter's earlier Phase-2 ballots, in order |
| VoterPage.FillMissing | pages/Voter.tsx:212-213 | every listed candidate is rated Hoàn thành and every other rating is unchanged |
| VoterPage.PreSubmitP1 | pages/Voter.tsx:197-226 | the submitted ballot keeps every existing rating, gives Hoàn thành to each unrated candidate, and rates every candidate; the count reported is the number of unrated candidates |
| VoterPage.QuickVoteP1 | pages/Voter.tsx:275-297 | only visible unrated candidates get Hoàn thành and all other entries stay; with none to fill, nothing changes and the error notice shows |
| VoterPage.SubmittedOncePerCandidate | pages/Voter.tsx:174 | the submitted array names each rated candidate exactly once, with its rating |
| VoterPage.FindLogin | pages/Voter.tsx:124-127 | the first voter whose trimmed cccd equals the id, or whose trimmed student id equals it case-insensitively; none exactly when no voter matches |
| VoterPage.LookUp | pages/Voter.tsx:116-132 | no data gives the data error; an empty trimmed id changes nothing; otherwise the first matching voter is found, or the not-found error |
| VoterPage.Route | pages/Voter.tsx:147-162 | done after both phases; Phase 1 iff it is open and not yet voted; Phase 2 iff it is open, not yet voted and Phase 1 is not due; the closed error iff both phases are closed and neither is voted |
| VoterPage.RouteProgress | pages/Voter.tsx:147-152 | a voter who voted in both phases is done; one who voted in neither goes to the first open phase |
| VoterPage.ClickP2 | pages/Voter.tsx:705-710 | a selected candidate is removed and the others stay; an unselected one is appended when below the cap, and otherwise nothing changes and the cap notice shows |
| VoterPage.ClickP2KeepsInvariant | pages/Voter.tsx:705-710 | clicks keep the selection within the cap and free of duplicates |
| VoterPage.ClickViewSelected | pages/Voter.tsx:527-530 | the "selected" toggle flips, and the two view toggles are never both on |
| VoterPage.ClickHideSelected | pages/Voter.tsx:538-541 | the "hide selected" toggle flips, and the two view toggles are never both on |
| VoterPage.OrOther | pages/Voter.tsx:328 | the grouping key is never empty, and a non-empty value is kept |
| VoterPage.P2DisplayData | pages/Voter.tsx:342-355 | the Phase-2 list is a subsequence of the candidates, holding exactly those passing the search, branch and selection filters; "hide selected" overrides "show only selected" |
| VoterPage.GroupKeys | pages/Voter.tsx:333-338 | each unit key of the shown candidates appears once, and only those keys appear |
| VoterPage.P1DisplayData | pages/Voter.tsx:324-340 | every group holds only candidates of its unit |
| VoterPage.Flatten | pages/Voter.tsx:276 | flattening the groups yields exactly their members |
| VoterPage.VisibleIsShown | pages/Voter.tsx:276-277 | quick-fill acts on exactly the candidates the Phase-1 filter shows |
| VoterPage.Session.constructor | pages/Voter.tsx:21-53 | no user, the login step, no error, empty ratings and selection, both view toggles off |
| VoterPage.Session.Login | pages/Voter.tsx:112-163 | the errors of the lookup leave user, step and ballots as they were; a found voter enters |
| VoterPage.Session.Enter | pages/Voter.tsx:134-162 | the voter becomes the user, their earlier ballots are restored, and the step is the routed one, or the closed error is set with the step unchanged |
| VoterPage.Session.RateP1 | pages/Voter.tsx:666-668 | one rating button writes one key of the rating map and nothing else |
| VoterPage.Session.QuickFill | pages/Voter.tsx:289-292 | the rating map becomes the quick-filled map |
| VoterPage.Session.SubmitP1 | pages/Voter.tsx:165-195 | the map's entries are cast under the user's cccd; on success the step is Phase 2 when it is open in the store's fresh copy, and done otherwise; without a user nothing happens |
| VoterPage.Session.SubmitP2 | pages/Voter.tsx:228-252 | the selection is cast under the user's cccd, and on success the step is done |
| VoterPage.Session.ClickCard | pages/Voter.tsx:705-710 | the selection becomes the click's outcome |
| VoterPage.Session.ToggleViewSelected | pages/Voter.tsx:526-530 | the view becomes the "selected" click's outcome |
| VoterPage.Session.ToggleHideSelected | pages/Voter.tsx:537-541 | the view becomes the "hide selected" click's outcome |
| Excel.FindHeader | services/excel.ts:21 | the first column whose trimmed, lowercased header contains the lowercased fragment; none exactly when no header matches |
| Excel.MapKeysDomain | services/excel.ts:15-27 | a field is set iff some map entry targeting it finds a header |
| Excel.MapKeysValue | services/excel.ts:19-24 | a field's value comes from the first header matching the last matching entry for that field |
| Excel.MapKeys | services/excel.ts:15-27 | the loop builds exactly the entry-by-entry mapping of the row |
| Excel.SelfAssessmentLaterWins | services/excel.ts:97-98 | when a 'mức độ htnv' column exists, it supplies the self-assessment, whatever the 'tự đánh giá' column holds |
| Excel.OrEmpty | services/excel.ts:56 | a falsy cell becomes the empty string, a truthy one its text |
| Excel.IdText | services/excel.ts:53 | the id is the cell's text with only its surrounding white space removed |
| Excel.StudentId | services/excel.ts:54 | a truthy cell gives its trimmed text, a missing or falsy one the empty string |
| Excel.VoterOfRow | services/excel.ts:40-61 | a row is kept iff its cccd and name are truthy. A kept voter has the trimmed cccd cell, the trimmed mssv or '', the name cell, '' for each missing optional field, and both flags false |
| Excel.PersonOf | services/excel.ts:102-106 | the spread candidate has the trimmed cccd and student id of its cells, the name cell's text ('' when the cell is missing) and no voted flags |
| Excel.CandidateP1OfMapped | services/excel.ts:100-107 | a row is kept iff its cccd is truthy; the person is PersonOf of the row, the self-assessment defaults to '' and the scores are the raw cells |
| Excel.CandidateP2OfMapped | services/excel.ts:142-149 | a row is kept iff its cccd is truthy; the person is PersonOf of the row; the self-assessment is '' and the proposing branch is the mapped cell |
| Excel.ReadVoters | services/excel.ts:40-62 | the roster holds exactly the kept rows' voters, with trimmed ids and no votes |
| Excel.ReadCandidatesP1 | services/excel.ts:84-108 | the list holds exactly the kept rows' candidates, with trimmed ids |
| Excel.ReadCandidatesP2 | services/excel.ts:127-150 | the list holds exactly the kept rows' candidates, with trimmed ids and an empty self-assessment |
| Excel.ReadVotersInOrder | services/excel.ts:40-62 | rows are mapped independently and kept in order: reading two blocks is reading each and concatenating |

## Findings

| source | as written | input that shows it | evidently intended | confidence | as-written member | corrected member |
|---|---|---|---|---|---|---|
| pages/Admin.tsx:623 | the candidate readers keep a row whose name cell is missing and spread `...mapped`, so `hoTen` is `undefined`; the Phase-2 search then calls `c.hoTen.toLowerCase()` and throws | a Phase-2 sheet row with a cccd of "001" and no name cell | read a missing name as '', as the voter page does with `(c.hoTen \|\| '')` at pages/Voter.tsx:344, so the candidate is listed and searchable | not executed | AdminPage.SearchRankingAsWritten, AdminPage.NamelessCandidateBreaksSearch | AdminPage.SearchRanking, AdminPage.NamelessCandidateListed |

## Left out

- Firebase setup, anonymous sign-in, the subscription plumbing and the `runTransaction` retry loop (services/storage.ts:84-136). These are external services and concurrency. A transaction is one atomic step on the remote document, and a backend failure is the `remoteOk` parameter.
- localStorage and JSON serialisation: the local copy is a value. Also left out: `window` events, `alert`/`confirm`, `window.location.reload` and `forcePushToCloud`. These are browser plumbing and I/O.
- Reading spreadsheets (FileReader, XLSX), `exportToExcel` and `downloadTemplate`: these are calls into a foreign library. A sheet enters the model as its rows of (header, cell) pairs.
- The percentages (`toFixed`, `Math.round`): these are floating point. Only the integer counts and the denominator rules are modelled.
- The administrator password checks and all React rendering. Also the toast timers, the 3-second loading timeout, the 500 ms submit delay and the 800 ms step delay: SubmitP1 and SubmitP2 set the step at once.
- The remote empty-array case: the remote backend drops empty arrays. The stored document therefore has optional fields, and the merge restores them. Empty candidate lists are likewise optional.
- `toLowerCase` covers ASCII, Latin-1 and the Vietnamese letters only. Other scripts keep their case in the model.
- JavaScript objects order integer-like keys first. The rating map and the Phase-1 groups keep plain insertion order instead.
- Excel.VoterOfRow: the model stores the text form of a numeric name or date cell, while the reader keeps the raw value. On a raw numeric name, the pages' `toLowerCase` calls would throw.
- Excel.PersonOf: a missing name, date, membership type or unit is read as '' where the spread leaves `undefined`, and a numeric cell as its text. The failing search on a missing name is the Findings row; the same failure on a numeric name is not modelled.
- AdminPage.SearchCandidatesP1: the Phase-1 tab (pages/Admin.tsx:477) fails on a missing name in the same way as the Phase-2 search; the as-written form is given for the Phase-2 search only.
- Storage.Normalize: its own contract states that the result is trimmed and that a trimmed id is unchanged. That nothing but the surrounding white space is removed is the separate lemma Storage.NormalizeStrips.
- Types.Cell: scores (`diemHT`, `diemRL`) are declared numbers but hold whatever cell the sheet had. The model keeps the cell, with `Num` as an integer; fractional scores are not modelled.
- The `catch` path of handleFileUpload is not modelled, because the readers here are total.
- VoterPage.P1DisplayData: states only that each group holds candidates of its own unit. That the groups together hold exactly the shown candidates is VisibleIsShown, and the order of the groups is not stated.
- Storage.Store.CastVoteP1, Storage.Store.CastVoteP2: the remote path does not refresh the in-memory copy; that happens through the next OnRemoteValue, as in the code.
- Storage.LoadFromLocal: the local load merges only the top level, so a stored configuration missing display fields stays incomplete (LocalLoadKeepsPartialDisplay). This follows the code rather than the invariant that display maps are always complete.
