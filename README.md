# cx1_go_scripts, modelled in Dafny

This project models the decision logic of four tools from the
cx1_go_scripts repository and proves properties about it.

* **cxsast_query_migration_tester** moves custom SAST queries from a
  CxSAST server to CheckmarxOne.
  * `querymerge.go` turns a chain of query overrides into one merged query.
    It builds a comment tag for each override, validates the chain, decides
    whether an override calls its base query and whether it does so safely,
    renames the base call, and glues the overrides into one source text.
  * `querieslist.go` keeps the four migration queues. These are corp queries
    to create, corp queries to migrate, and team and project overrides to
    migrate. Dependencies are pulled in front of a query or routed to the
    corp queue.
  * `process.go` classifies the query collection into those queues as query
    ids. It lists the projects of every team and sorts the summary keys.
  * `migrate.go` walks a team override up its base chain into a merger,
    builds the team hierarchy and dispatches corp queries.
* **query-creator** loads `<Language>/<Group>/<Name>.cs` files. It handles
  the `General` group first when creating and last when deleting. It creates
  a missing query from the closest tenant query or from a placeholder, and
  updates source and severity only when they differ.
* **compare_cx1_envs** compares the sub-roles of one role in two tenants and
  counts the roles that differ.
* **sast-results-api-check** pairs the findings of the two SAST results APIs
  by similarity id and result hash. It compares each pair on severity, state
  and status, lists the disagreeing findings in id order, and rewrites their
  triage in two predicate writes.

## Modelling choices

* Pure Go functions are Dafny functions over datatypes.
* Go objects that mutate their fields are classes whose methods state the
  whole new state: `QueryMerge.QueryMerger` and `Queues.QueriesList`.
* Loops are methods proved against a specification function.
* Strings are `seq<char>`. The Go standard-library string functions the
  tools call are in `text.dfy`; the string order and `slices.Sort` are in
  `ordering.dfy`.
* The outcome of every remote API call, the clock and the walk of a folder
  are parameters. Map iteration order is modelled as arbitrary choice where
  the result does not depend on it.

## Model

| member | source | states |
|---|---|---|
| Text.IndexOf | cxsast_query_migration_tester/querymerge.go:228 | strings.Index: the result is -1 or a position where the pattern occurs, and the pattern occurs at no earlier position |
| Text.IndexFrom | cxsast_query_migration_tester/querymerge.go:228 | the same search started at a given position: a found position is at or after the start and no position between start and result matches |
| Text.Split | query-creator/main.go:198 | strings.Split: at least one piece, and no piece holds the separator |
| Text.SplitJoin | query-creator/main.go:198 | joining the pieces of a split with the separator gives back the original path |
| Text.JoinSplit | query-creator/main.go:198 | splitting a '/'-join of parts without '/' gives back exactly those parts |
| Text.ReplaceAll | cxsast_query_migration_tester/querymerge.go:309 | strings.Replace with -1: a text that does not contain the pattern is unchanged |
| Text.ReplaceAllRemoves | cxsast_query_migration_tester/querymerge.go:374-383 | strings.Replace of every occurrence leaves none behind when the replacement holds neither the first nor the last character of the pattern and does not occur in it |
| Text.NoOccurrenceAcross | cxsast_query_migration_tester/querymerge.go:383 | gluing two pattern-free strings around such a replacement creates no occurrence of the pattern |
| Text.ReplaceWithItself | cxsast_query_migration_tester/querymerge.go:340 | renaming the base call to the same name leaves the code unchanged |
| Text.TrimSpace | cxsast_query_migration_tester/querymerge.go:123-126 | strings.TrimSpace: the result is no longer than the input and neither starts nor ends with white space |
| Text.TrimLeftDropsSpace | cxsast_query_migration_tester/querymerge.go:184 | only white space is removed in front |
| Text.TrimRightDropsSpace | cxsast_query_migration_tester/querymerge.go:184 | only white space is removed at the end |
| Text.TrimSpaceIdempotent | cxsast_query_migration_tester/querymerge.go:123-126 | trimming a trimmed name again changes nothing |
| Text.Lines | cxsast_query_migration_tester/querymerge.go:185-186 | bufio line scanning: a non-empty text yields at least one line, and no line holds a newline |
| Text.LinesCons | cxsast_query_migration_tester/querymerge.go:185-193 | a line, a newline and a rest scan as that line (less a final CR) followed by the lines of the rest |
| Text.NatToString | cxsast_query_migration_tester/querymerge.go:148-155 | strconv.FormatUint: a non-empty string of decimal digits |
| Text.DecimalLength | cxsast_query_migration_tester/querymerge.go:371 | a number of at least ten to the k has more than k digits, so the counter of the temp-name search eventually names a string longer than the code |
| Ordering.LessEqTotal | cxsast_query_migration_tester/process.go:153 | Go's string order compares any two strings |
| Ordering.LessEqAntisymmetric | cxsast_query_migration_tester/process.go:153 | two strings each below the other are equal |
| Ordering.LessEqTransitive | cxsast_query_migration_tester/process.go:153 | the string order is transitive |
| Ordering.Sort | cxsast_query_migration_tester/process.go:153 | slices.Sort: the result is ascending and a permutation of the input |
| Ordering.SortedUnique | sast-results-api-check/main.go:159 | two ascending permutations of the same strings are identical, so the sorted order does not depend on map iteration order |
| CodeAnalysis.StripBlockComments | cxsast_query_migration_tester/querymerge.go:200-201 | removing C-style comments never lengthens the code |
| CodeAnalysis.StripBlockCommentsIdentity | cxsast_query_migration_tester/querymerge.go:200-201 | code without a comment opener is left as it is |
| CodeAnalysis.StripLineComments | cxsast_query_migration_tester/querymerge.go:202-203 | after removing line comments no "//" is left, and the text is no longer than before |
| CodeAnalysis.StripLineCommentsIdentity | cxsast_query_migration_tester/querymerge.go:202-203 | code without "//" is left as it is |
| CodeAnalysis.StripLineCommentsIdempotent | cxsast_query_migration_tester/querymerge.go:202-203 | removing line comments twice is removing them once |
| CodeAnalysis.Uncommented | cxsast_query_migration_tester/querymerge.go:198-208 | uncommentedcode: the result is no longer than the input and holds no "//" |
| CodeAnalysis.UncommentedWithoutSlash | cxsast_query_migration_tester/querymerge.go:198-208 | code without any slash has no comment to remove |
| CodeAnalysis.WordIndexFrom | cxsast_query_migration_tester/querymerge.go:164-177 | the search from a position returns -1 or a matching word at or after it, and no earlier word from that position matches |
| CodeAnalysis.WordIndex | cxsast_query_migration_tester/querymerge.go:164-177 | wordindex: -1 or the first word equal to the target, or starting with it when a prefix is asked for |
| CodeAnalysis.Blank | cxsast_query_migration_tester/querymerge.go:234-237 | the length is unchanged, every character is kept or replaced by a blank, and no newline, CR, tab or backspace is left |
| CodeAnalysis.BlankIdentity | cxsast_query_migration_tester/querymerge.go:234-237 | text without those characters is unchanged |
| CodeAnalysis.Window | cxsast_query_migration_tester/querymerge.go:228-232 | the window examined is a proper prefix of the comment-free code, whatever the clamp of the cut position gives |
| CodeAnalysis.LastChance | cxsast_query_migration_tester/querymerge.go:243-255 | corrected last-chance rule: it holds exactly when some word "result" is followed by a word starting with "=" and the base call |
| CodeAnalysis.Analyze | cxsast_query_migration_tester/querymerge.go:211-262 | corrected codecallsbase on comment-free code: callsBase exactly when the code contains the base call; no call means safe; "result=" directly before the call means safe (the other safe and unsafe cases are the lemmas below) |
| CodeAnalysis.CodeCallsBase | cxsast_query_migration_tester/querymerge.go:211-262 | the same three properties stated on the raw source via uncommentedcode |
| CodeAnalysis.AssignmentWithoutBlankIsSafe | cxsast_query_migration_tester/querymerge.go:243-259 | a word "result" followed by "=" and the base call in the window makes the corrected analysis report a safe base call |
| CodeAnalysis.SpacedAssignmentIsSafe | cxsast_query_migration_tester/querymerge.go:239-241 | `result = base.<name>()`: when the two words before the first word that starts with the base call are `result` and `=`, the call is safe |
| CodeAnalysis.GluedAssignmentIsSafe | cxsast_query_migration_tester/querymerge.go:239-241 | `result= base.<name>()`: when the word before the first word that starts with the base call is `result=`, the call is safe |
| CodeAnalysis.UnassignedCallIsUnsafe | cxsast_query_migration_tester/querymerge.go:225-259 | conversely, a base call with no `result=` directly before it, in a window with no word `result` or `result=`, is reported unsafe |
| CodeAnalysis.WindowOfCopiedResult | cxsast_query_migration_tester/querymerge.go:228-232 | for the body `x=base.Q();result=x;` the window is all of it but the final semicolon |
| CodeAnalysis.BlankOfCopiedWindow | cxsast_query_migration_tester/querymerge.go:234-237 | that window has nothing to blank |
| CodeAnalysis.SplitOfCopiedWindow | cxsast_query_migration_tester/querymerge.go:238 | that window has no blank, so the split gives it back as the only word |
| CodeAnalysis.WordsOfCopiedResult | cxsast_query_migration_tester/querymerge.go:228-238 | the words of that body are that single word |
| CodeAnalysis.CopiedResultHasNoJoinedAssignment | cxsast_query_migration_tester/querymerge.go:226 | that body does not contain `result=base.Q()` |
| CodeAnalysis.CopiedResultIsUnsafe | cxsast_query_migration_tester/querymerge.go:211-262 | any source whose comment-free text is `x=base.Q();result=x;` calls its base unsafely: the copy through `x` is not recognised |
| CodeAnalysis.CopiedResultBodyIsUnsafe | cxsast_query_migration_tester/querymerge.go:211-262 | the body itself is reported as calling its base unsafely |
| CodeAnalysis.AsWrittenAgreesOnCallsBase | cxsast_query_migration_tester/querymerge.go:216-217 | wherever the code as written does not panic, it agrees with the corrected analysis on whether the base is called |
| Text.IndexOfAt | cxsast_query_migration_tester/querymerge.go:228 | a match whose first character occurs nowhere earlier is the first match |
| CodeAnalysis.WindowOfDocumentedPattern | cxsast_query_migration_tester/querymerge.go:223-232 | for the body `result =base.Q();` the window is `result =base.Q()` |
| CodeAnalysis.WordsOfDocumentedPattern | cxsast_query_migration_tester/querymerge.go:238 | that window splits into the words `result` and `=base.Q()` |
| CodeAnalysis.SplitOfDocumentedWindow | cxsast_query_migration_tester/querymerge.go:238 | the split on a single blank of that window |
| CodeAnalysis.DocumentedPatternHasNoJoinedAssignment | cxsast_query_migration_tester/querymerge.go:226 | that body does not contain `result=base.Q()`, so the first safety check does not fire |
| CodeAnalysis.NoWordStartsWithTheCall | cxsast_query_migration_tester/querymerge.go:239-241 | no word of that body starts with the base call, so the direct-assignment check does not fire |
| CodeAnalysis.DocumentedPatternPanics | cxsast_query_migration_tester/querymerge.go:243-255 | as written, codecallsbase reads a word at index -1 on the body `result =base.Q();` for query Q |
| CodeAnalysis.LastChanceOnDocumentedWords | cxsast_query_migration_tester/querymerge.go:243-255 | the corrected last-chance rule finds that assignment |
| CodeAnalysis.DocumentedPatternAccepted | cxsast_query_migration_tester/querymerge.go:211-262 | any source whose comment-free text is that body is a safe base call under the corrected rule |
| CodeAnalysis.DocumentedBodyAccepted | cxsast_query_migration_tester/querymerge.go:211-262 | the body itself is a safe base call under the corrected rule |
| QueryMerge.SeverityLabel | cxsast_query_migration_tester/querymerge.go:128-140 | severities 0 to 3 are labelled starting with their digit; any other value is labelled "Invalid (...)" |
| QueryMerge.Tag | cxsast_query_migration_tester/querymerge.go:142-158 | the tag opens with the separator line and the marker of the override level, and closes with the separator line |
| QueryMerge.ConstructQueryRecord | cxsast_query_migration_tester/querymerge.go:119-161 | constructqueryrecord: source, ids, level and severity are copied; names are trimmed; the tag has the level's shape; a new record is marked as not calling base and safe |
| QueryMerge.FirstProblem | cxsast_query_migration_tester/querymerge.go:432-461 | None exactly when every entry from the position on is in order; otherwise the complaint about an entry that is out of order |
| QueryMerge.Validate | cxsast_query_migration_tester/querymerge.go:394-468 | validate_queries_struct: EMPTY exactly for no entries; one entry is INVALID exactly when its severity is outside 0 to 3; two or more are INVALID exactly when the chain is not well formed; OK and REMERGE carry no message, and REMERGE exactly when the head already holds a merge marker |
| QueryMerge.AnalyzeAll | cxsast_query_migration_tester/querymerge.go:319-327 | the analysis keeps the number of entries |
| QueryMerge.FirstIndexUpTo | cxsast_query_migration_tester/querymerge.go:319-327 | the anchor of the merge: every later entry calls its base, and the anchor itself does not unless it is the head |
| QueryMerge.Candidate | cxsast_query_migration_tester/querymerge.go:362-372 | a temp name with a positive counter holds the stem and every digit of the counter |
| QueryMerge.FreshCounter | cxsast_query_migration_tester/querymerge.go:362-372 | the counter loop stops at the smallest number from the start whose temp name the code does not contain |
| QueryMerge.ArrangedLines | cxsast_query_migration_tester/querymerge.go:180-195 | reading back the arranged lines gives each input line behind its indentation |
| QueryMerge.ArrangeCodeLines | cxsast_query_migration_tester/querymerge.go:180-195 | arrangecode: the lines of the result are the lines of the trimmed code, each behind the indentation (commented or not) |
| QueryMerge.BlockTagged | cxsast_query_migration_tester/querymerge.go:334-386 | an entry's block opens with its tag and has a body after it |
| QueryMerge.Blocks | cxsast_query_migration_tester/querymerge.go:330-388 | one block per entry of the chain |
| QueryMerge.BlockAt | cxsast_query_migration_tester/querymerge.go:330-388 | block k is entry k written as the k-th entry |
| QueryMerge.MergedStep | cxsast_query_migration_tester/querymerge.go:386 | one more entry glues exactly one more block onto the merged text |
| QueryMerge.MergedHead | cxsast_query_migration_tester/querymerge.go:330-388 | the merged text starts with the first block |
| QueryMerge.MergedJoin | cxsast_query_migration_tester/querymerge.go:386 | gluing non-empty blocks is joining them with the separator of blank lines |
| QueryMerge.MergeSpecMessage | cxsast_query_migration_tester/querymerge.go:284-291 | the merge reports the validation message, and an empty chain merges to empty code |
| QueryMerge.MergeSpecStatus | cxsast_query_migration_tester/querymerge.go:284-314 | the merge fails (status EMPTY or INVALID, code above 1) exactly for an empty chain or a malformed chain of two or more entries; a single entry is always OK |
| QueryMerge.MergeSpecHead | cxsast_query_migration_tester/querymerge.go:301-388 | merged code opens with the tag of the head entry |
| QueryMerge.MergedChainHead | cxsast_query_migration_tester/querymerge.go:330-388 | the glued blocks of a chain open with the tag of its first entry |
| QueryMerge.SingleEntryVerbatim | cxsast_query_migration_tester/querymerge.go:301-314 | a single entry that is not renamed is emitted as its tag, a newline, its source and a newline, with status OK |
| QueryMerge.SingleEntryRenamed | cxsast_query_migration_tester/querymerge.go:301-314 | a renamed single entry is emitted as its tag, the rename note and separator, a newline, its source with every `base.<from>()` replaced by `base.<to>()`, and a newline, with status OK |
| QueryMerge.CallHoldsNoResult | cxsast_query_migration_tester/querymerge.go:382 | the base call of a name without `result` in it holds no `result` |
| QueryMerge.SafeEntryDropsBaseCall | cxsast_query_migration_tester/querymerge.go:381-384 | a safe entry after the anchor gets the `result` rewrite, and no `base.<to>()` is left in its body, provided the destination name does not contain `result` |
| QueryMerge.UnsafeEntryCloned | cxsast_query_migration_tester/querymerge.go:361-380 | an unsafe entry after the anchor gets the clone rewrite: its body opens with the prelude that saves `result` in a temporary named from `_merged_base_<to>`, and the renamed body does not mention that temporary |
| QueryMerge.ClearInjectionUnreachable | cxsast_query_migration_tester/querymerge.go:355-360 | in a chain of two or more the rewrite that only clears `result` is never chosen, since every entry after the anchor calls its base |
| QueryMerge.TagMarked | cxsast_query_migration_tester/querymerge.go:142-158 | the tag of a corp, team or project override carries the merge marker |
| QueryMerge.MarkedPrefix | cxsast_query_migration_tester/querymerge.go:411-415 | a text that starts with a marked text is marked |
| QueryMerge.MergedOutputMarked | cxsast_query_migration_tester/querymerge.go:301-388 | merging a chain whose head is marked yields marked code |
| QueryMerge.RemergeDetected | cxsast_query_migration_tester/querymerge.go:411-415 | merged output fed back as the head of a new chain never validates as OK |
| QueryMerge.RecordMarked | cxsast_query_migration_tester/querymerge.go:49-61 | the record of any non-product override is marked |
| QueryMerge.MaxSeverity | cxsast_query_migration_tester/querymerge.go:106-116 | the highest severity is at least 0, bounds every entry, and is 0 or some entry's severity |
| QueryMerge.QueryMerger.constructor | cxsast_query_migration_tester/querymerge.go:44-46 | a new merger holds no entries |
| QueryMerge.QueryMerger.Add | cxsast_query_migration_tester/querymerge.go:49-61 | the record of the query, owned by its group, is appended |
| QueryMerge.QueryMerger.Insert | cxsast_query_migration_tester/querymerge.go:64-76 | the record is put in front |
| QueryMerge.QueryMerger.Clear | cxsast_query_migration_tester/querymerge.go:79-83 | the merger is emptied |
| QueryMerge.QueryMerger.Count | cxsast_query_migration_tester/querymerge.go:86-88 | the number of entries |
| QueryMerge.QueryMerger.Delete | cxsast_query_migration_tester/querymerge.go:91-95 | the last entry is dropped; an empty merger stays empty |
| QueryMerge.QueryMerger.Query | cxsast_query_migration_tester/querymerge.go:98-103 | an error "Query index out of bounds" exactly when the index is outside the entries, otherwise the entry at the index |
| QueryMerge.QueryMerger.Severity | cxsast_query_migration_tester/querymerge.go:106-116 | the highest severity, or the severity of the last entry |
| QueryMerge.QueryMerger.FreshTempName | cxsast_query_migration_tester/querymerge.go:362-372 | the loop's temp name does not occur in the code and is the first such candidate |
| QueryMerge.QueryMerger.AnalyzeChain | cxsast_query_migration_tester/querymerge.go:319-327 | every entry gets the flags codecallsbase computes, and the anchor is returned |
| QueryMerge.QueryMerger.MergeBlock | cxsast_query_migration_tester/querymerge.go:334-386 | one loop turn produces the block of the entry |
| QueryMerge.QueryMerger.MergeQueries | cxsast_query_migration_tester/querymerge.go:265-391 | merge_queries computes the merge specification of the old entries, and updates the entries' flags only for chains of two or more |
| QueryMerge.QueryMerger.MergeBlocks | cxsast_query_migration_tester/querymerge.go:330-388 | the injection loop glues the blocks of the whole chain |
| QueryMerge.QueryMerger.AppendBlock | cxsast_query_migration_tester/querymerge.go:386 | one turn glues the entry's block onto the code so far |
| QueryMerge.QueryMerger.Merge | cxsast_query_migration_tester/querymerge.go:481-492 | the merged code, with an error carrying the validation message exactly when the status is EMPTY or INVALID |
| QueryMerge.QueryMerger.CheckStatus | cxsast_query_migration_tester/querymerge.go:495-500 | the status and message of validation |
| QueryMerge.QueryMerger.UncommentedCode | cxsast_query_migration_tester/querymerge.go:506-513 | the merged code without comments (empty when the merge is empty), holding no "//" |
| Queues.QueueOkCons | cxsast_query_migration_tester/querieslist.go:128-154 | queuing one more eligible query that is not yet queued keeps a queue of distinct eligible queries |
| Queues.InsertQuery | cxsast_query_migration_tester/querieslist.go:156-176 | insertQueryToList: the old list is kept as the tail; nothing changes unless the query is valid, custom and absent; then the query is in front of the old list; an eligible query is always in the result |
| Queues.InsertDeps | cxsast_query_migration_tester/querieslist.go:165-170 | the dependency loop keeps the old list as the tail |
| Queues.InsertDepsStep | cxsast_query_migration_tester/querieslist.go:165-170 | one turn inserts the dependency when it is in scope and absent |
| Queues.InsertQueryKeepsQueue | cxsast_query_migration_tester/querieslist.go:156-176 | insertion keeps a queue of distinct eligible queries of the collection |
| Queues.InsertDepsKeepsQueue | cxsast_query_migration_tester/querieslist.go:165-170 | the dependency loop keeps the queue well kept |
| Queues.InsertQueryCoversDeps | cxsast_query_migration_tester/querieslist.go:165-170 | every eligible in-scope dependency of an inserted query ends up queued |
| Queues.InsertDepsCover | cxsast_query_migration_tester/querieslist.go:165-170 | the same for the loop over a list of dependencies |
| Queues.InsertedDependencyFirst | cxsast_query_migration_tester/querieslist.go:156-176 | a dependency brought in by insertion comes before the query that needs it |
| Queues.DepStep | cxsast_query_migration_tester/querieslist.go:137-146 | one turn of the append loop keeps the old list as the tail |
| Queues.AppendDeps | cxsast_query_migration_tester/querieslist.go:137-146 | the append loop over dependencies keeps the old list as the tail |
| Queues.AppendList | cxsast_query_migration_tester/querieslist.go:128-154 | appendQueryToList: unchanged unless the query is valid, custom and absent; then the list with the query appended is the tail of the result |
| Queues.AppendDepsKeepsQueue | cxsast_query_migration_tester/querieslist.go:137-146 | the append loop keeps a queue well kept |
| Queues.AppendListKeepsQueue | cxsast_query_migration_tester/querieslist.go:128-154 | appending keeps a queue well kept |
| Queues.AppendListCoversDeps | cxsast_query_migration_tester/querieslist.go:137-146 | every eligible dependency of the same team or project ends up in the list |
| Queues.AppendDepsCover | cxsast_query_migration_tester/querieslist.go:137-146 | the same for the loop over a list of dependencies |
| Queues.CorpAfterKeepsQueue | cxsast_query_migration_tester/querieslist.go:142-143 | routing corp dependencies keeps the corp queue well kept and loses nothing from it |
| Queues.CorpAfterAppendKeepsQueue | cxsast_query_migration_tester/querieslist.go:128-154 | the same for a whole appendQueryToList call |
| Queues.Fixed | cxsast_query_migration_tester/querieslist.go:93-99 | each queued query gets the owning group the collection has for its id, and nothing else changes |
| Queues.FixedOwnQueries | cxsast_query_migration_tester/querieslist.go:92-126 | queues of the collection's own queries are left as they are |
| Queues.FixedIdempotent | cxsast_query_migration_tester/querieslist.go:92-126 | fixing twice is fixing once |
| Queues.FixedSnoc | cxsast_query_migration_tester/querieslist.go:93-99 | fixing one more query of a list |
| Queues.FixedStep | cxsast_query_migration_tester/querieslist.go:93-99 | one loop turn fixes the next query of the list |
| Queues.FirstMissing | cxsast_query_migration_tester/querieslist.go:93-97 | None exactly when every query is in the collection; otherwise the first one that is missing |
| Queues.FirstMissingAt | cxsast_query_migration_tester/querieslist.go:93-97 | the first missing query follows a prefix of known ones |
| Queues.QueriesList.constructor | cxsast_query_migration_tester/querieslist.go:17-24 | NewQueriesList: four empty queues, which are well kept |
| Queues.QueriesList.InsertQueryToList | cxsast_query_migration_tester/querieslist.go:156-176 | the method computes insertQueryToList |
| Queues.QueriesList.InsertDepsOf | cxsast_query_migration_tester/querieslist.go:165-170 | the loop computes the dependency insertion |
| Queues.QueriesList.AppendCorp | cxsast_query_migration_tester/querieslist.go:26-33 | the corp migrate queue gets the query unless it is queued; the other queues are unchanged |
| Queues.QueriesList.AppendQueryToList | cxsast_query_migration_tester/querieslist.go:128-154 | returns appendQueryToList's list; corp dependencies are routed to the corp queue; the other queues are unchanged |
| Queues.QueriesList.AppendNewCorp | cxsast_query_migration_tester/querieslist.go:34-41 | the create queue gets the query unless it is queued; the corp queue gets its corp dependencies; queues stay well kept |
| Queues.QueriesList.AppendTeam | cxsast_query_migration_tester/querieslist.go:42-57 | the team's queue gets the query; a root query is also queued for creation at corp level; queues stay well kept |
| Queues.QueriesList.InsertTeam | cxsast_query_migration_tester/querieslist.go:58-73 | the query is inserted in front of the team's queue; a root query is also queued for creation; queues stay well kept |
| Queues.QueriesList.AppendProject | cxsast_query_migration_tester/querieslist.go:75-90 | the project's queue gets the query; a root query is also queued for creation; queues stay well kept |
| Queues.QueriesList.FixList | cxsast_query_migration_tester/querieslist.go:93-99 | every query of a list is fixed, or the first missing one is reported with the prefix before it fixed |
| Queues.QueriesList.FixMap | cxsast_query_migration_tester/querieslist.go:107-115 | every list of a map is fixed, or some missing query of some list is reported |
| Queues.QueriesList.FixGroups | cxsast_query_migration_tester/querieslist.go:92-126 | no error exactly when every queued query is in the collection, and then every queue holds its queries with their current owning groups; otherwise the reported query is queued and missing |
| Process.PrependIds | cxsast_query_migration_tester/process.go:184-198 | prependQueryToList: the old ids are the tail; an eligible query's id is put in front; otherwise nothing changes |
| Process.PrependDeps | cxsast_query_migration_tester/process.go:190-195 | the dependency loop keeps the old ids as the tail |
| Process.AppendIds | cxsast_query_migration_tester/process.go:166-182 | appendQueryToList on ids: unchanged unless eligible and absent; then the ids with the query's id appended are the tail |
| Process.AppendIdDeps | cxsast_query_migration_tester/process.go:171-178 | the dependency loop keeps the old ids as the tail |
| Process.IdsCons | cxsast_query_migration_tester/process.go:166-198 | the ids of a list with one more query in front |
| Process.IdsMember | cxsast_query_migration_tester/process.go:168 | in a keyed collection a query is listed exactly when its id is |
| Process.IdsOfQueue | cxsast_query_migration_tester/process.go:166-198 | the ids of a well-kept queue are distinct ids of eligible queries |
| Process.QueriesOfIds | cxsast_query_migration_tester/process.go:166-198 | the queries of a well-kept id queue form a well-kept queue with those ids |
| Process.PrependAgrees | cxsast_query_migration_tester/process.go:184-198 | prepending on ids does exactly what insertQueryToList does on queries |
| Process.PrependDepsAgree | cxsast_query_migration_tester/process.go:190-195 | the same for the dependency loops |
| Process.AppendAgrees | cxsast_query_migration_tester/process.go:166-182 | appending on ids does exactly what the queue list's append does on queries, without the corp routing |
| Process.AppendDepsAgree | cxsast_query_migration_tester/process.go:171-178 | the same for the dependency loops |
| Process.AppendIdsKeepsQueue | cxsast_query_migration_tester/process.go:166-182 | appending keeps an id queue of distinct eligible queries |
| Process.PrependIdsKeepsQueue | cxsast_query_migration_tester/process.go:184-198 | prepending keeps an id queue of distinct eligible queries |
| Process.PrependedDependencyFirst | cxsast_query_migration_tester/process.go:184-198 | a dependency brought in by prepending comes before the query that needs it |
| Process.ClassifyQueryKeeps | cxsast_query_migration_tester/process.go:43-83 | classifying one query keeps every queue well kept, drops nothing from the corp queue, and queues an eligible corp query for migration |
| Process.RootOnlyCreated | cxsast_query_migration_tester/process.go:53-55 | an eligible team or project query that is its own base is queued for corp creation and nowhere else |
| Process.ClassifyGroupKeeps | cxsast_query_migration_tester/process.go:43-83 | after a group every eligible query of a corp group is queued for migration and the queues stay well kept |
| Process.ClassifyKeeps | cxsast_query_migration_tester/process.go:41-85 | the same over the groups handled so far |
| Process.ClassificationQueuesCorp | cxsast_query_migration_tester/process.go:41-85 | after classification every eligible query of every corp group is in the corp migrate queue |
| Process.ClassifyQueries | cxsast_query_migration_tester/process.go:41-85 | the classification loop computes the classification of all groups |
| Process.ClassifyGroupQueries | cxsast_query_migration_tester/process.go:45-82 | the inner loop classifies the group's queries in order |
| Process.FileIds | cxsast_query_migration_tester/process.go:58-63 | the owner's id list, created empty when missing, gets the query appended |
| Process.ClassifyOne | cxsast_query_migration_tester/process.go:43-83 | one query is filed by the package type of its group |
| Process.ProjectsPerTeam | cxsast_query_migration_tester/process.go:34-39 | the teams listed are exactly those with a project; each list is non-empty and holds exactly the ids of the team's projects, each once when projects are filed under their ids |
| Process.FiledStep | cxsast_query_migration_tester/process.go:34-39 | filing one more project keeps the loop invariant |
| Process.FiledTeamsStep | cxsast_query_migration_tester/process.go:35-38 | filing a project lists its team |
| Process.FiledIdsStep | cxsast_query_migration_tester/process.go:38 | filing a project lists its id under its team |
| Process.FiledOnceStep | cxsast_query_migration_tester/process.go:38 | filing a new project keeps each list free of repeats |
| Process.TeamQueriesToMigrate | cxsast_query_migration_tester/process.go:111-114 | a query id is migrated at team level exactly when it is queued for a team that has projects |
| Process.HasProjectsIff | cxsast_query_migration_tester/process.go:111-112 | the gate holds exactly for the teams some project belongs to |
| Process.SummaryKey | cxsast_query_migration_tester/process.go:148 | the key starts with the language and a dot and ends with " #" and the query id |
| Process.KeyBagRemove | cxsast_query_migration_tester/process.go:147-151 | the bag of keys does not depend on the order entries are visited |
| Process.KeyBagMember | cxsast_query_migration_tester/process.go:147-151 | a key is in the bag exactly when some status entry has it |
| Process.CollectKeys | cxsast_query_migration_tester/process.go:145-151 | every entry's key is collected, with repetition, and the key map leads from each key to an entry with that key |
| Process.SummaryKeys | cxsast_query_migration_tester/process.go:145-153 | the keys are sorted and are exactly the entries' keys with repetition; each leads to an entry with that key |
| Process.SummaryDeterministic | cxsast_query_migration_tester/process.go:145-153 | whatever order the status map is visited in, the summary lists the same keys in the same order |
| Migrate.AncestorsStart | cxsast_query_migration_tester/migrate.go:502-509 | the hierarchy is non-empty exactly when the team has a parent, and then starts with it |
| Migrate.AncestorsLinked | cxsast_query_migration_tester/migrate.go:502-509 | each listed team is the parent of the one before it |
| Migrate.AncestorsBelow | cxsast_query_migration_tester/migrate.go:502-509 | every listed id is a real team id (not 0) ranked below the team |
| Migrate.AncestorsEnd | cxsast_query_migration_tester/migrate.go:502-509 | the walk stops at a team with no parent to follow |
| Migrate.AncestorsAcyclic | cxsast_query_migration_tester/migrate.go:502-509 | the team is not its own ancestor and no ancestor is listed twice |
| Migrate.MakeTeamHierarchy | cxsast_query_migration_tester/migrate.go:502-509 | the loop lists the team's ancestors, parent first |
| Migrate.WalkStart | cxsast_query_migration_tester/migrate.go:464-481 | the chain walk starts at the source when its team is known and is empty otherwise |
| Migrate.WalkLinked | cxsast_query_migration_tester/migrate.go:464-481 | each visited query is the base of the one before it |
| Migrate.WalkEnd | cxsast_query_migration_tester/migrate.go:464-481 | the walk ends at a root, or at a query whose base is not a known team override |
| Migrate.OwnedBuildsRecords | cxsast_query_migration_tester/migrate.go:464-481 | the record of a visited query is the one Insert builds, owned by its team |
| Migrate.MergedQueryKeepsSource | cxsast_query_migration_tester/migrate.go:483-498 | the merged query differs from the source query only in its code, and an error returns the source query unchanged |
| Migrate.MergedCodeStartsWithRootTag | cxsast_query_migration_tester/migrate.go:455-498 | the merged code opens with the tag of the chain's root-most override |
| Migrate.WalkAdvance | cxsast_query_migration_tester/migrate.go:464-481 | the loop invariant: what is visited plus what remains is the whole walk, one query per turn |
| Migrate.Push | cxsast_query_migration_tester/migrate.go:470-472 | the record of the visited query goes in front of the merger |
| Migrate.StackChain | cxsast_query_migration_tester/migrate.go:464-481 | the merger holds the records of the walk, root-most first, and the count of visited queries |
| Migrate.MakeMergedQuery | cxsast_query_migration_tester/migrate.go:455-500 | makeMergedQuery yields the merged query the chain specification gives |
| Migrate.FinishMerge | cxsast_query_migration_tester/migrate.go:483-498 | the end of makeMergedQuery follows the merge of the stacked records |
| Migrate.CorpDispatch | cxsast_query_migration_tester/migrate.go:99-103 | a root query creates a new corp query and a query with another base creates a corp override, each exactly then |
| QueryCreator.Ext | query-creator/main.go:210 | filepath.Ext: the extension is a suffix of the name |
| QueryCreator.ExtShape | query-creator/main.go:210 | the extension is empty or a dot followed by no dot and no slash; with no extension the last path element has no dot |
| QueryCreator.TrimSuffix | query-creator/main.go:210 | strings.TrimSuffix: the result plus the suffix is the input when it has that suffix; otherwise the input |
| QueryCreator.ExtOfTail | query-creator/main.go:210 | the extension of a name is the part after its last dot |
| QueryCreator.ExtSnoc | query-creator/main.go:210 | one more non-dot character extends the extension |
| QueryCreator.StemOfFileName | query-creator/main.go:210 | the name of `stem.ext` is `stem`, whatever dots the stem holds |
| QueryCreator.LoadQueryFromFile | query-creator/main.go:191-218 | an error exactly when the relative path is not three elements or the file cannot be read; the source is the header, a newline and the file; executable exactly outside General; severity and level are the defaults |
| QueryCreator.LoadQueryFromPath | query-creator/main.go:191-218 | `Language/Group/Name.ext` loads as exactly that query |
| QueryCreator.LoadQueryRejectsDepth | query-creator/main.go:198-201 | a path with more or fewer than three elements is rejected however the file reads |
| QueryCreator.LoadedFromQueryFiles | query-creator/main.go:159-182 | every loaded query comes from a visited ".cs" file that loads as it |
| QueryCreator.SkippedEntry | query-creator/main.go:163-177 | directories, files not ending in ".cs" and files that fail to load add nothing |
| QueryCreator.LoadQueriesFromFolder | query-creator/main.go:156-189 | the collection is the queries of the loadable ".cs" files, and an error exactly when the walk met one |
| QueryCreator.SelectOnly | query-creator/main.go:291-315 | a pass selects only groups of its kind |
| QueryCreator.SelectSplits | query-creator/main.go:291-315 | the two passes split the groups: each group is in exactly one |
| QueryCreator.ProcessingOrderIsPermutation | query-creator/main.go:291-315 | every group is handled exactly once |
| QueryCreator.ProcessingOrderGeneralPlace | query-creator/main.go:291-315 | General comes before all other groups when creating and after them when deleting |
| QueryCreator.Pass | query-creator/main.go:293-313 | one pass handles the groups of its kind in order |
| QueryCreator.CreateQueriesFromLanguage | query-creator/main.go:291-315 | the groups are handled in the processing order |
| QueryCreator.CreateSteps | query-creator/main.go:344-385 | nothing is created for an existing query; an override is made only at the query's level from a base at another level; a new tenant query gets the placeholder source and only when there is no closest query |
| QueryCreator.CreateFromClosest | query-creator/main.go:350-383 | with a closest query, one override is made exactly when that query is at another level, and nothing otherwise |
| QueryCreator.Updated | query-creator/main.go:407-434 | after the update pass the source is the wanted one, the severity equals the wanted one ignoring case, and identity and level are kept |
| QueryCreator.UpdateIsIdempotent | query-creator/main.go:407-434 | a second pass after a successful one makes no call and changes nothing |
| QueryCreator.MatchingQueryUntouched | query-creator/main.go:407-434 | a query whose source matches and whose severity matches ignoring case gets no call and is unchanged |
| CompareEnvs.KeepMember | compare_cx1_envs/main.go:193-209 | a name is kept exactly when it is in the first list and its presence in the other list is as asked |
| CompareEnvs.ExtraAndCommon | compare_cx1_envs/main.go:193-201 | extra and common sub-roles of the first role, and the roles stay "same" exactly when nothing is extra |
| CompareEnvs.Missing | compare_cx1_envs/main.go:203-209 | sub-roles only the second role has; "same" survives exactly when none is missing |
| CompareEnvs.CompareRoles | compare_cx1_envs/main.go:177-230 | same exactly when both roles are non-composite or their sub-role names agree as sets; two non-composite roles give no lists; otherwise extra, common and missing are the filtered lists |
| CompareEnvs.KeepNone | compare_cx1_envs/main.go:193-209 | nothing is kept when no name qualifies |
| CompareEnvs.SameIffNoDifference | compare_cx1_envs/main.go:193-209 | no extra and no missing sub-role exactly when the sub-role sets are equal |
| CompareEnvs.ExtraAndCommonSplit | compare_cx1_envs/main.go:193-201 | each sub-role of the first role is extra or common, never both |
| CompareEnvs.CompareSymmetric | compare_cx1_envs/main.go:177-230 | the verdict does not depend on which tenant is first |
| CompareEnvs.DiffCount | compare_cx1_envs/main.go:134-174 | at most one difference per role |
| CompareEnvs.NoDiffsIff | compare_cx1_envs/main.go:134-174 | no difference exactly when every role matches in both tenants or is missing from both |
| CompareEnvs.CountDiffs | compare_cx1_envs/main.go:134-174 | the loop counts the roles that differ or are found in one tenant only |
| ResultsCheck.PairingKeyed | sast-results-api-check/main.go:116-157 | adding findings keeps every pair filed under its findings' ids |
| ResultsCheck.SastKeepsFiled | sast-results-api-check/main.go:126-132 | a pair already filed is never replaced by a later api/sast-results finding |
| ResultsCheck.FirstSastResultKept | sast-results-api-check/main.go:126-132 | the first api/sast-results finding with given ids is the one paired |
| ResultsCheck.ApiKeepsComplete | sast-results-api-check/main.go:145-156 | a pair that already has an api/results finding keeps it |
| ResultsCheck.FirstApiResultAttached | sast-results-api-check/main.go:145-156 | the first api/results finding with given ids is attached next to the sast finding filed there, if any |
| ResultsCheck.SastPairingKeys | sast-results-api-check/main.go:116-133 | the similarity ids paired are the old ones and those of the added findings |
| ResultsCheck.ApiPairingKeys | sast-results-api-check/main.go:135-157 | the same for the api/results findings |
| ResultsCheck.AddIdSpec | sast-results-api-check/main.go:118-120 | the id list stays free of repeats and collects every id |
| ResultsCheck.BuildPairs | sast-results-api-check/main.go:112-157 | the pairing of both lists, with the similarity ids listed once each, exactly the keys of the pairing |
| ResultsCheck.DifferencesListed | sast-results-api-check/main.go:205-214 | each differing field is listed once, and only differing fields |
| ResultsCheck.CompareResults | sast-results-api-check/main.go:203-223 | compareResults: the reports agree exactly when severity, state and status are equal |
| ResultsCheck.CompareResultsSymmetric | sast-results-api-check/main.go:203-223 | agreement and the differing fields do not depend on the order of the reports |
| ResultsCheck.CompleteHashes | sast-results-api-check/main.go:162-179 | the hashes gathered are exactly those of pairs with both reports, each once |
| ResultsCheck.OnceNoDup | sast-results-api-check/main.go:176-178 | a list holding every value at most once has no repeats |
| ResultsCheck.NoDupOnce | sast-results-api-check/main.go:176-178 | a list without repeats holds every value at most once |
| ResultsCheck.SortStrict | sast-results-api-check/main.go:159 | sorting distinct strings gives the same strings in strictly increasing order |
| ResultsCheck.FixesOfMember | sast-results-api-check/main.go:182-197 | a finding is listed exactly when it is flagged and its hash is among those walked |
| ResultsCheck.FixesOfOrder | sast-results-api-check/main.go:181-197 | increasing hashes give findings in increasing hash order |
| ResultsCheck.FixesOfStep | sast-results-api-check/main.go:182-197 | one turn lists the finding when updates are on and the pair disagrees |
| ResultsCheck.CheckHashes | sast-results-api-check/main.go:182-197 | the loop over hashes lists the flagged findings |
| ResultsCheck.SimFixes | sast-results-api-check/main.go:161-197 | for one similarity id, exactly its flagged findings, in increasing hash order |
| ResultsCheck.InOrderAppend | sast-results-api-check/main.go:161 | the fixes of a later similarity id keep the whole list in order |
| ResultsCheck.ListedStep | sast-results-api-check/main.go:161-198 | one more similarity id keeps the loop invariant |
| ResultsCheck.ProcessPairs | sast-results-api-check/main.go:159-198 | exactly the flagged findings are rewritten, by similarity id then hash, none twice |
| ResultsCheck.ProcessScanResults | sast-results-api-check/main.go:89-201 | the findings rewritten are exactly those whose two reports disagree when updates are on, in id and hash order |
| ResultsCheck.NoUpdateNoFix | sast-results-api-check/main.go:184 | with updates off nothing is rewritten |
| ResultsCheck.FlaggedFirstReports | sast-results-api-check/main.go:116-184 | the first reports of a finding from both APIs flag it exactly when they disagree |
| ResultsCheck.FixFinding | sast-results-api-check/main.go:186-190 | a failed lookup of the last predicate writes nothing and reports the failure |
| ResultsCheck.RepairWrites | sast-results-api-check/main.go:225-233 | the first write moves the triage to PROPOSED_NOT_EXPLOITABLE, with the configured comment when there is one; the second write is made exactly when the first succeeded |
| ResultsCheck.RepairRestores | sast-results-api-check/main.go:225-245 | success exactly when both writes succeed; after the first succeeded, the last write restores the original state with the original comment, or "Importer Triage Fix" when there was none |
| ResultsCheck.FixKeepsState | sast-results-api-check/main.go:184-195 | the rewrite of a flagged finding succeeds exactly when the lookup and both writes do, and then it ends in the finding's own state |

## Left out

- Remote calls to the CxSAST and CheckmarxOne APIs, audit sessions, logging, flags and file I/O. Their outcomes are parameters: `firstOk`/`secondOk`, `lastComment`, `created`, `existsAtLevel`, `closest`, the `Visit` list of a folder walk, and the `data` of a file read.
- The timestamp of a tag (`time.Now` in constructqueryrecord) is a parameter.
- The comment the client library gives a new triage predicate is a parameter (`newComment`).
- Pointer identity: the queues of `querieslist.go` compare query records by value, and FixGroups updates the queued copies. Aliasing between a queued pointer and the collection's query is not modelled.
- Go maps are iterated in a random order. The model visits them in some order and proves that the results used do not depend on it: the summary keys, the pairing, and the sorted ids.
- Integer widths: ids are unbounded naturals, severities unbounded integers. The Go `uint64`/`int` never wrap in these tools.
- Strings are sequences of characters. UTF-8 bytes are not modelled, and `strings.EqualFold` is limited to ASCII case folding.
- The regular expressions of uncommentedcode are modelled as a left-to-right scanner. It removes a C-style comment from "/*" to the first "*/" after it, and a line comment up to the end of the line.
- `filepath.Rel` and `filepath.ToSlash`: the path reaches LoadQueryFromFile already relative and with '/' separators.
- The delete mode of createQueriesFromGroup (query-creator/main.go:318-341) is a sequence of API calls with no decision beyond "the query exists". Only its place in the group order is modelled.
- DoProcess's calls to MigrateCorpQuery, getCx1RootQuery and MigrateTeamQuery, and its writes to QueryMigrationStatus, are left out. The status map is an input to the summary.
- mainRunner's role lookups are a sequence of `Lookup` results; the printing of compareRoles is left out.
- The makeMergedQuery of process.go (lines 200-237) is not part of this model. The package declares makeMergedQuery twice, in process.go and in migrate.go (lines 455-500), so the tool does not build as written. The model follows the migrate.go version. The process.go version has no break when it reaches a root query, so its loop would not end there, and it has no early return for a single unrenamed query.
- Queues.QueriesList.AppendCorp and the other queue methods require `Closed`: every dependency id is in the collection. They also take a ghost rank that orders the corp dependencies. The Go code dereferences a nil query when a dependency is missing, and recurses forever on a cycle of corp dependencies.
- Migrate.Walk, Migrate.MergedQuery and Migrate.MakeMergedQuery take a fuel bound `n` and require that the base chain ends within it. The Go loop follows base ids through the collection and would panic on a missing base or loop forever on a cycle.
- Migrate.Ancestors and Migrate.MakeTeamHierarchy take a ghost rank on team parentage. The Go loop would not stop on a cycle of parents.
- Migrate.MergedQuery and Migrate.MergeOutcome have no contract of their own. Their properties are stated by Migrate.MergedQueryKeepsSource, Migrate.MergedCodeStartsWithRootTag, Migrate.MakeMergedQuery and Migrate.FinishMerge.
- ResultsCheck.AddResultPredicate has no contract of its own. Its properties are stated by ResultsCheck.RepairWrites and ResultsCheck.RepairRestores.
- QueryMerge.QueryMerger.MergeQueries: the merge is modelled with the corrected last-chance rule, not the one that panics (see Findings).
- ResultsCheck.BuildPairs: each pair holds its own copy of the finding it was built from. sast-results-api-check/main.go:128 and :147 store `&result`, the address of the loop variable. Under Go 1.22 and later each iteration has its own variable, which is what the model gives. Under earlier Go versions every pair would point at the last finding of its list.
- QueryCreator.LoadQueriesFromFolder: the loaded queries are a flat sequence. `collection.AddQuery` (query-creator/main.go:179) files each query under its language and group. The groups QueryCreator.CreateQueriesFromLanguage handles are an input of the model.
- Queues.QueriesList: the queues are `seq` values. The Go lists of cxsast_query_migration_tester/querieslist.go are slices, and `append` may share a backing array between the list passed in and the list returned. That sharing is not modelled.
- Process.PrependIds, Process.AppendIds and the other members of Process require `Keyed` and `Closed`: every dependency id is in the collection. cxsast_query_migration_tester/process.go:172 and :191 use `GetQueryByID` without a nil check, so a missing dependency is a nil dereference in Go.
- Text.Lines has no line-length limit. bufio.Scanner (cxsast_query_migration_tester/querymerge.go:185) stops silently at a line longer than 64 KiB, which drops the rest of the code from arrangecode.
- Migrate.Owned and Migrate.StackChain use one timestamp for a whole chain. constructqueryrecord calls `time.Now()` for each record (cxsast_query_migration_tester/querymerge.go:121), so the tags of one chain can carry different times.
- QueryMerge.SafeEntryDropsBaseCall requires that the destination name does not contain `result`. Without that, the replacement can create a new base call: for the name `xresulty`, the code `base.xbase.xresulty()y()` becomes `base.xresulty()`.

## Findings

| source | as written | input that shows it | evidently intended | confidence | as-written member | corrected member |
|---|---|---|---|---|---|---|
| cxsast_query_migration_tester/querymerge.go:249 | the last-chance loop starts at word 0 and reads `words[pos-1]` | a query Q whose body is `result =base.Q();`, the pattern the comment at line 223 describes: the first word is `result`, so index -1 is read and Go panics | read the word after, `words[pos+1]`, which the loop bound `pos <= len(words)-2` allows for | not executed | CodeAnalysis.DocumentedPatternPanics | CodeAnalysis.DocumentedBodyAccepted |
