# Course schedule builder: conflict detection, combination generation, scoring

This project models the decision core of a course-schedule builder and proves properties of it in Dafny. A student picks courses. Each course has several sections, and each section has meeting days, start and end times, start and end dates, an instruction method and possibly corequisite sections. The builder does three things:

- **Conflict detector** (`module/utils.py`):
  - `check_time_conflict` decides whether two sections overlap on a shared day.
  - `has_time_conflict` checks one new section against a list (incremental mode), or a whole list (full mode). Full mode sorts by dates and scans pairs with an early `break`.
  - `parse_section_times` memoises the parsed fields of a section.
  - `sort_combination` orders a schedule for display.
- **Combination generator** (`module/scheduling_logic.py`). `generate_combinations_with_coreqs` forms the Cartesian product of the per-course section lists and drops tuples with an internal conflict. It then adds corequisite sections through a frontier of provisional combinations, and fetches each corequisite id through a cache.
- **Scoring engine and ranker** (`module/scoring.py`). Several sub-scores feed a weighted combined score: sections per day, modality, days on campus, gaps between classes (with a mandatory break), and start/end-time consistency. `score_combinations` sorts the scored schedules, ascending and stably.

Files:

| file | module | contents |
|---|---|---|
| `wrappers.dfy` | `Wrappers` | `Option`, and `Result` (an error carries the exception's message) |
| `text.dfy` | `Text` | Python's `split`, `join`, `strip`, `upper` and `rsplit('-', 1)` on strings |
| `sorting.dfy` | `Sorting` | a stable sort on lexicographic keys (Python's `sorted` / `list.sort`), with its stability theorem |
| `sections.dfy` | `Sections` | times (seconds of the day), dates (day numbers), the section record and its memo of parsed fields |
| `utils.dfy` | `Utils` | the error ledger and the conflict detector |
| `scheduling.dfy` | `Scheduling` | the combination generator |
| `config.dfy` | `Config` | the configuration record and the shipped configuration |
| `scoring.dfy` | `Scoring` | the sub-scores, the combined score and the ranker |

How the model represents the source:

- **Ledger.** The module-level `errors` dictionary is a `Ledger` value: a map from a function name to a set of messages. It is threaded through the methods and returned.
- **Section lookup.** The database lookup of a course's sections is a function parameter `Lookup` that returns `Result<seq<Section>>`. An `Err` stands for the exception the query raises.
- **Missing configuration keys.** A missing key in the configuration is `None` in the `Config` record. Reading it gives `Err` with the text of Python's `KeyError`.

## Model

| member | source | states |
|---|---|---|
| Text.Split | module/utils.py:135 | `str.split(sep)` always gives at least one piece |
| Text.JoinSplit | module/scheduling_logic.py:36 | joining the pieces of `split(sep)` with `sep` gives back the string |
| Text.SplitPiecesFree | module/scheduling_logic.py:36 | no piece of `split(sep)` contains the separator |
| Text.StripShape | module/scheduling_logic.py:60 | `strip()` is a contiguous slice of the string that removes only whitespace and neither starts nor ends with whitespace |
| Text.Strip | module/scheduling_logic.py:60 | `strip()` is never longer than the text, and the result neither starts nor ends with whitespace |
| Text.StripIdempotent | module/scheduling_logic.py:60 | stripping twice is stripping once |
| Text.Upper | module/scheduling_logic.py:60 | `upper()` keeps the length and upper-cases each character |
| Text.BeforeLast | module/scheduling_logic.py:64 | `rsplit('-', 1)[0]`: the part before the last separator, or the whole string when it has none |
| Utils.Record | module/utils.py:32-45 | recording a message under a function name keeps every other entry, adds the message, and adds nothing else (messages are deduplicated) |
| Utils.TimeDifferenceInMinutes | module/utils.py:102-115 | the result is the floor of the difference in minutes: `r*60 <= t1-t2 < r*60+60` |
| Utils.TimeDifferenceFacts | module/utils.py:113-115 | equal times give 0; swapping the arguments negates the result when the difference is whole minutes, and negates it minus one otherwise (floor division) |
| Utils.ParseDays | module/utils.py:134-136 | an empty `Mtg_Days` gives the empty set; otherwise the set holds exactly the pieces of the field split on `', '` |
| Utils.ParseSectionTimes | module/utils.py:118-136 | the result is annotated, its other fields are unchanged, a field already parsed keeps its value, and an unannotated section gets the parsed values of its own fields |
| Utils.ParseSectionTimesIdempotent | module/utils.py:126-136 | a second call changes nothing, and an annotated section is returned unchanged |
| Utils.ParseAll | module/utils.py:186-187 | every member of the list is annotated by `parse_section_times`, in place and in order |
| Utils.ParseAllOfParsed | module/utils.py:186-187 | annotating an already annotated list changes nothing |
| Utils.ParsedValuesKept | module/utils.py:126-136 | the values read back after annotation are those of the unannotated section |
| Utils.CheckTimeConflict | module/utils.py:139-171 | the result is `true` exactly when the sections share a day, both have times, and `start1 < end2 && end1 > start2`; no shared day or a missing start time gives `false`; sections whose start and end times are both present or both missing never fail |
| Utils.CheckTimeConflictSymmetric | module/utils.py:163-168 | for sections whose times come in pairs, swapping the two sections gives the same answer |
| Utils.CheckTimeConflictExamples | module/utils.py:151-171 | touching intervals (9-10 and 10-11) do not conflict; 8:00-9:00 and 8:30-9:30 do, in either order; a section without times conflicts with nothing |
| Utils.HasConflictWith | module/utils.py:186-194 | incremental mode: the result is the reference `FirstVerdict`, the first verdict in list order that is not "no conflict"; "no conflict" exactly when no member conflicts with the new section; otherwise the verdict (a conflict or an error) of the first member that does not pass; dates are not consulted and the list keeps its order |
| Utils.FirstVerdictMeaning | module/utils.py:191-194 | the reference verdict is "no conflict" exactly when every member passes the check against the new section, and otherwise it is the check's verdict on some member |
| Utils.SortedByDateKey | module/utils.py:196-206 | a list sorted by (start date, end date, start time or midnight) has non-decreasing start dates |
| Utils.DateSortFacts | module/utils.py:196-206 | the sorted, annotated copy is annotated, has non-decreasing start dates, and keeps each member's date and time well-formedness |
| Utils.ScanMatchesOverlap | module/utils.py:208-211 | for sorted start dates and a forward date range, the scan reaches a pair (does not `break` before it) exactly when the two date ranges intersect |
| Utils.ScanSorted | module/utils.py:208-214 | the nested loops with their early `break` return exactly the reference pair scan `ScanFrom`; "no conflict" exactly when every scanned pair is free of conflict; otherwise they return the verdict of the first scanned pair that is not "no conflict" |
| Utils.HasInternalConflict | module/utils.py:174-214 | full mode: the list is left as the sorted, annotated permutation of its input; the verdict is the reference pair scan `ScanFrom` of it; "no conflict" exactly when the scan finds none; with forward date ranges, exactly when every date-overlapping pair is free of conflict; with paired times as well, the answer is whether two members clash |
| Utils.ScanClearIffOverlapClear | module/utils.py:208-214 | with forward date ranges, the early `break` is sound: the scan's verdict equals the all-pairs check restricted to date-overlapping pairs |
| Utils.WellDatedClause | module/utils.py:208-214 | with forward date ranges, the full-mode result is "no conflict" exactly when every date-overlapping pair is free of conflict |
| Utils.OverlapClearIffNoClashingPair | module/utils.py:163-168 | for annotated sections with paired times, every date-overlapping pair being free of conflict is the same as no two members clashing |
| Utils.OverlapClearNoClashingPair | module/utils.py:163-168 | if every date-overlapping pair is free of conflict, no two members clash |
| Utils.OverlapClearIffNoClash | module/utils.py:196-214 | the sorted list's verdict over date-overlapping pairs equals "no two members of the input clash" (the verdict does not depend on the order) |
| Utils.DayNumber | module/utils.py:228-237 | the seven day codes map into 0..6, and exactly the unknown codes map to 8 |
| Utils.SortCombination | module/utils.py:217-244 | the result is a permutation of the schedule, sorted by (first meeting day, start time or midnight), with sections that have no meeting days keyed `(7, Name)` |
| Utils.NoDaysSectionsComeLast | module/utils.py:230-237 | a section without meeting days comes after every section whose first day is a known weekday |
| Scheduling.Prefixed | module/scheduling_logic.py:93 | each tail, with the chosen first element put in front |
| Scheduling.ChooseLength | module/scheduling_logic.py:93 | one choice of a first element followed by every tail gives `|xs| * |tails|` tuples |
| Scheduling.ChooseMembers | module/scheduling_logic.py:93 | a tuple is among the choices exactly when its head is in `xs` and its tail among the tails |
| Scheduling.Product | module/scheduling_logic.py:93 | `product(*lists)` has as many tuples as the product of the list lengths |
| Scheduling.ProductMembers | module/scheduling_logic.py:93 | a tuple is in the product exactly when it has one section per course, in course order, each from its own course |
| Scheduling.Firsts | module/scheduling_logic.py:93 | the first section of each course, in course order |
| Scheduling.ProductOfSingletons | module/scheduling_logic.py:93 | courses with one section each give exactly one base tuple |
| Scheduling.FlattenSnoc | module/scheduling_logic.py:101 | extending the output by one tuple's results appends them at the end |
| Scheduling.FlattenMembers | module/scheduling_logic.py:101 | a combination is in the output exactly when some base tuple contributed it |
| Scheduling.GetCoreqs | module/scheduling_logic.py:24-37 | an empty field gives no ids; otherwise the ids, joined with `', '`, give back the field |
| Scheduling.Matches | module/scheduling_logic.py:66 | a record is kept exactly when it is in the rows and its stripped, upper-cased name is the id |
| Scheduling.MatchesHead | module/scheduling_logic.py:66-72 | the first match is the first row, in row order, whose name matches |
| Scheduling.FetchCoreq | module/scheduling_logic.py:63-66 | a failing query fails with its message; a query that returns no rows fails with `KeyError('Name')`; otherwise the result is the rows of the id's course whose normalised name is the id |
| Scheduling.FetchLogAppend | module/scheduling_logic.py:63-66 | two fetch logs in a row, over caches that only grow, form one log of distinct ids |
| Scheduling.ExtendFrontier | module/scheduling_logic.py:70-76 | the combinations added are exactly the reference `Extension`: each provisional combination the incremental check passes, extended by the annotated record, in frontier order; every check before position `reached` returned a verdict; the failure is exactly the reference `ExtensionFailure`, the check's first exception, at `reached`, which ends the loop |
| Scheduling.ExtendAt | module/scheduling_logic.py:72-76 | one pass of the loop: a passing check adds the extended combination, a conflict adds nothing, and an exception stops the loop with the check's message and nothing more added, each as the references `Extension` and `ExtensionFailure` prescribe |
| Scheduling.ExtensionAt | module/scheduling_logic.py:72-76 | the reference extension and failure at one combination, by the check's verdict on it: an exception gives nothing and is the failure; a conflict is skipped; otherwise the extended combination comes first |
| Scheduling.ExtensionSound | module/scheduling_logic.py:70-76 | everything the loop adds is some provisional combination that the check passed, extended by the annotated record |
| Scheduling.ExtensionComplete | module/scheduling_logic.py:70-76 | every provisional combination that the check passes is extended, unless the check raised on an earlier one |
| Scheduling.ProvisionalStable | module/scheduling_logic.py:61-76 | the provisional invariant survives the growth of the processed ids |
| Scheduling.ProvisionalAppend | module/scheduling_logic.py:61-76 | appending the first record of a new id that passes the incremental check keeps the invariant and marks the id processed |
| Scheduling.CoversAppend | module/scheduling_logic.py:72-74 | appending a corequisite of member `m` covers that member and keeps the members covered before |
| Scheduling.CachedFetch | module/scheduling_logic.py:63-68 | the result is what the lookup gives for the id; the cache stays faithful and only grows; an id is fetched only when it is not cached, and it is cached only when the fetch succeeds |
| Scheduling.AllStable | module/scheduling_logic.py:61-76 | the provisional invariant survives the growth of the processed ids for a whole frontier |
| Scheduling.AddedProvisional | module/scheduling_logic.py:70-76 | every combination the frontier loop builds for a new id is provisional and covers member `m` |
| Scheduling.RunStaysStopped | module/scheduling_logic.py:55-89 | once the member loop has rejected the tuple, it stays rejected |
| Scheduling.StoppedAt | module/scheduling_logic.py:55-89 | a rejected tuple was rejected at some member reached before, whose step rejected it |
| Scheduling.NeverStopped | module/scheduling_logic.py:55-89 | when the member loop has not rejected the tuple, no member it reached rejected it |
| Scheduling.RunEarlier | module/scheduling_logic.py:55-89 | a tuple not rejected after some members was not rejected after fewer |
| Scheduling.AdvanceNonEmpty | module/scheduling_logic.py:53-89 | the frontier is never empty while the tuple is not rejected |
| Scheduling.CoreqResultEmpty | module/scheduling_logic.py:55-91 | both directions of the rejection rule: the result is empty exactly when some member, reached with the tuple not yet rejected, declares corequisites and builds nothing |
| Scheduling.ApplyRecord | module/scheduling_logic.py:69-85 | the next frontier is the old one followed by exactly the reference extension by the id's first record; the record's name and the id are noted exactly when something was added; the invariants of both frontiers hold; the ledger is exactly the old one plus, when the check raised, its message under `has_time_conflict` and, with the member's name, under `add_coreqs_to_combination` |
| Scheduling.RecordCheckFailure | module/scheduling_logic.py:77-83 | an exception from the incremental check is recorded twice: with a trailing space under `has_time_conflict` (by its decorator) and with `in section` and the member's name under `add_coreqs_to_combination`; no exception records nothing |
| Scheduling.TryCandidate | module/scheduling_logic.py:72-74 | the candidate is the combination with the annotated record appended, and the verdict is the incremental check's first verdict over the combination's members |
| Scheduling.ResolveMember | module/scheduling_logic.py:55-89 | the frontier, names and processed ids are exactly the reference `ResolveIds` over the member's corequisite ids, and the ledger exactly the reference `MemberLedger`, each id's records after the records of the ids before it; the next frontier is provisional and covers member `m`; a member whose corequisites are all already named builds nothing; a member without corequisites changes nothing; the cache stays faithful and logs each id it fetched successfully, once |
| Scheduling.ResolveNext | module/scheduling_logic.py:59-85 | one pass of the loop over a member's corequisite ids keeps the loop invariant: progress and records are the reference ones over the ids so far |
| Scheduling.ResolveIdsSnoc | module/scheduling_logic.py:59-85 | resolving one more id is one reference step after resolving the ids before it |
| Scheduling.ResolveLedgerSnoc | module/scheduling_logic.py:59-85 | the records of one more id follow the records of the ids before it |
| Scheduling.IdLedgerGrows | module/scheduling_logic.py:77-85 | one id's records only add to the ledger |
| Scheduling.ResolveLedgerPrefix | module/scheduling_logic.py:59-85 | the records of the first ids are kept by the records of all of them |
| Scheduling.FailedFetchRecorded | module/scheduling_logic.py:62-85 | a corequisite whose fetch fails, reached while neither named nor processed, leaves its message with the member's name under `add_coreqs_to_combination` in the member's final records; the loop goes on |
| Scheduling.ResolveId | module/scheduling_logic.py:59-85 | the result is exactly the reference step `IdStep`: an id already named or processed, a failing fetch and a fetch with no rows change nothing, and otherwise the first record's extension is added; the ledger is exactly the reference `IdLedger`: nothing for a skipped id, the fetch's message with the member's name under `add_coreqs_to_combination` for a failing fetch, the check's exception for a fetched record; the frontier invariants hold and the cache stays faithful and logs the id when its fetch succeeded |
| Scheduling.CoversSkip | module/scheduling_logic.py:87-89 | a member without corequisites adds nothing to cover |
| Scheduling.NoCoreqsPrefix | module/scheduling_logic.py:55-56 | a prefix is free of corequisites exactly when the prefix before it is and the new member declares none |
| Scheduling.BaseProvisional | module/scheduling_logic.py:53 | the base tuple itself is the first provisional combination |
| Scheduling.ProvisionalCompleted | module/scheduling_logic.py:91 | a provisional combination that covers every member is a finished one |
| Scheduling.AdvanceMember | module/scheduling_logic.py:55-89 | rejected exactly when the reference `MemberStep` rejects, and otherwise the new state is that step's; the ledger is exactly the member's reference records; a rejection happens only at a member that declares corequisites; otherwise the new frontier is non-empty and provisional, covers every member up to `m`, no member so far had all its corequisites named, and it is still the bare tuple while no member declared any |
| Scheduling.AddCoreqs | module/scheduling_logic.py:40-91 | the result is exactly the reference `CoreqResult` and the ledger exactly the reference `CoreqLedger`, the records of the members visited before a rejection; every returned combination extends the tuple by corequisite records, each the first record of its own id, each passing the incremental check, no id twice, and every member that declares corequisites covered; a non-empty result means no member had all its corequisites already named; a tuple without corequisites gives exactly itself |
| Scheduling.VisitMember | module/scheduling_logic.py:55-89 | one pass of the member loop: a rejection happens only at a member with corequisites, fixes the result (empty) and the final records; otherwise the loop invariant holds at the next member with its records |
| Scheduling.MemberVisited | module/scheduling_logic.py:87-89 | a member's step against the reference: a rejection makes `CoreqResult` empty and the records final; otherwise the next state and records are the reference ones |
| Scheduling.AdvanceNext | module/scheduling_logic.py:55-89 | a member reached in some state moves the loop on by its own step |
| Scheduling.CoreqLedgerNext | module/scheduling_logic.py:55-89 | a member reached without a rejection adds its own records to those of the members before it |
| Scheduling.CoreqLedgerIdle | module/scheduling_logic.py:87-88 | after a rejection, and past the last member, nothing more is recorded |
| Scheduling.RunLogStopped | module/scheduling_logic.py:87-88 | after the member loop stopped, nothing more is logged |
| Scheduling.RunLogNone | module/scheduling_logic.py:87-88 | a step of a loop that had stopped logs nothing |
| Scheduling.RunLogSome | module/scheduling_logic.py:55-89 | a step of a loop still running logs that step after what came before |
| Scheduling.MemberLedgerGrows | module/scheduling_logic.py:59-85 | one member's records only add to the ledger |
| Scheduling.CoreqLedgerStepGrows | module/scheduling_logic.py:55-89 | each member step of the corequisite stage only adds records |
| Scheduling.CoreqLedgerGrows | module/scheduling_logic.py:55-89 | the corequisite stage only adds records |
| Scheduling.ProcessBase | module/scheduling_logic.py:95-109 | one base tuple contributes exactly the reference `BaseResult`: nothing unless the full scan of its sorted, annotated copy passes, and then what the corequisite pass returns for that copy; that copy itself when it has no corequisites; the ledger is exactly the reference `BaseLedger`: a scan exception under `has_time_conflict` and, with the tuple, under `generate_combinations_with_coreqs`, nothing for a conflict, the corequisite records otherwise |
| Scheduling.OutcomesGenerated | module/scheduling_logic.py:93-111 | per-tuple outcomes that each equal the reference result concatenate to the reference `Generated` |
| Scheduling.ProcessBases | module/scheduling_logic.py:93-111 | the output is exactly the reference `Generated` and the ledger exactly the reference `GeneratedLedger`: each base tuple's contribution and records, in order; an id is fetched successfully (and cached) at most once over the whole loop |
| Scheduling.ProcessNext | module/scheduling_logic.py:95-109 | one pass of the loop over base tuples keeps the loop invariant: outcomes and records of the tuples so far are the reference ones, the cache stays faithful, fetched ids stay distinct |
| Scheduling.GeneratedLedgerSnoc | module/scheduling_logic.py:95-109 | the records of one more base tuple follow the records of the tuples before it |
| Scheduling.BaseLedgerGrows | module/scheduling_logic.py:95-109 | one base tuple's records only add to the ledger |
| Scheduling.GeneratedLedgerPrefix | module/scheduling_logic.py:93-109 | the records of the first tuples are kept by the records of all of them |
| Scheduling.FailedTupleRecorded | module/scheduling_logic.py:102-108 | a base tuple whose full scan raises leaves its message under `has_time_conflict` and, with the tuple, under `generate_combinations_with_coreqs` in the final ledger; the generator goes on |
| Scheduling.GenerateCombinations | module/scheduling_logic.py:7-111 | the output is exactly the reference `Generated` over the product tuples, in product order, and the ledger exactly the reference `GeneratedLedger` over them; with forward date ranges, every emitted combination is conflict-free; without corequisites, the output is exactly the clash-free tuples, each sorted; an id is fetched successfully (and cached) at most once |
| Scheduling.CompletedOverlapClear | module/scheduling_logic.py:96-101 | a conflict-free sorted tuple extended by records that passed the incremental check is still conflict-free on every date-overlapping pair |
| Scheduling.ValidCombinationConflictFree | module/scheduling_logic.py:96-101 | every combination a base tuple contributes is conflict-free |
| Scheduling.BaseMember | module/scheduling_logic.py:93 | the `k`-th section of a base tuple is a section of the `k`-th course |
| Scheduling.GeneratedConflictFree | module/scheduling_logic.py:93-111 | every emitted combination is conflict-free |
| Scheduling.SortedNoCoreqs | module/utils.py:200-206 | sorting and annotating keeps a tuple free of corequisites |
| Scheduling.NoCoreqsOutcome | module/scheduling_logic.py:87-101 | a corequisite-free base tuple contributes its sorted copy when no two members clash, and nothing otherwise |
| Scheduling.NoCoreqsOutcomes | module/scheduling_logic.py:95-101 | without corequisites, the output is the clash-free base tuples, sorted, in order |
| Scheduling.GeneratedWithoutCoreqs | module/scheduling_logic.py:93-111 | without corequisites, the generator's output is exactly the clash-free product tuples, each sorted |
| Scheduling.OneSectionPerCourse | module/scheduling_logic.py:93-101 | one corequisite-free section per course gives exactly one combination when no two of them clash, and none otherwise |
| Sorting.LexTotal | module/utils.py:200-206 | tuple keys compare totally |
| Sorting.LexTrans | module/utils.py:200-206 | tuple key comparison is transitive |
| Sorting.LexAntisym | module/utils.py:200-206 | tuple keys that compare both ways are equal |
| Sorting.LexLeHead | module/scoring.py:348 | keys in order have their first components in order |
| Sorting.InsertSorted | module/utils.py:244 | inserting into a sorted list keeps it sorted |
| Sorting.SortBy | module/utils.py:200-206 | the result is a permutation of the input, sorted by the key |
| Sorting.SortIsStable | module/scoring.py:348 | the sort is stable: elements with equal keys keep their input order |
| Sorting.SortSortedIsIdentity | module/utils.py:244 | sorting a sorted list changes nothing |
| Sections.MinuteOfDay | module/scoring.py:217 | `hour * 60 + minute` of a time, seconds dropped |
| Config.KeyError | module/scoring.py:53 | the text of a `KeyError`: the key in single quotes |
| Scoring.StripUnpadded | module/scoring.py:79 | stripping a string without end whitespace changes nothing |
| Scoring.MeetingDaysShape | module/scoring.py:67-80 | no extracted day has surrounding whitespace; the list is empty exactly when the field is; for a field without whitespace the days joined with `,` give back the field |
| Scoring.ExtractMeetingDays | module/scoring.py:67-80 | an empty `Mtg_Days` field gives no days; otherwise there is one day per comma-separated piece of the field |
| Scoring.OccurrencesAbsent | module/scoring.py:30-33 | a day that is not listed adds nothing |
| Scoring.ScoreMaxSectionsPerDay | module/scoring.py:14-40 | a missing maximum fails with Python's `'>'` comparison error; otherwise the score is the sum, over the seven day codes, of each day's excess over the maximum |
| Scoring.AddMeetings | module/scoring.py:29-33 | each known day's count goes up by the number of times the section lists it; unknown day codes are ignored |
| Scoring.CountMeetings | module/scoring.py:26-33 | the final counts are, for each known day, the number of meetings the schedule's sections list on it |
| Scoring.ExcessOverFacts | module/scoring.py:35-38 | the excess is non-negative, and 0 exactly when no listed day exceeds the maximum |
| Scoring.SectionsExcess | module/scoring.py:35-40 | the score is non-negative, and 0 exactly when no day of the week has more sections than the maximum |
| Scoring.UnknownDaysIgnored | module/scoring.py:32 | a section meeting only on unknown day codes does not change the score |
| Scoring.EmptyCombinationNoExcess | module/scoring.py:26-40 | an empty schedule scores 0 |
| Scoring.ScoreModality | module/scoring.py:42-64 | missing preferences fail with `KeyError('modality_preferences')`; otherwise the score is the number of sections whose course has a preference that differs from the section's method |
| Scoring.MismatchCount | module/scoring.py:56-64 | the score is at most the number of sections; 0 when no course has a preference; the number of sections when every section mismatches |
| Scoring.InPersonDays | module/scoring.py:97-99 | a section brings the student to campus on exactly its meeting days, unless its method is `ONLIN` |
| Scoring.CollectCampusDays | module/scoring.py:95-99 | the loop's set is the union of every section's in-person days |
| Scoring.CampusDays | module/scoring.py:95-99 | a day is on campus exactly when some section that is not online meets on it |
| Scoring.WeightFor | module/scoring.py:105 | `day_weights.get(excess)`: a value exactly when the table has that key, and then one of its entries for the key |
| Scoring.WeightForUnique | module/scoring.py:105 | on a table without repeated keys (every table a dictionary can stand for), the lookup returns the one weight stored under the key |
| Scoring.MaxWeight | module/scoring.py:105 | `max(day_weights.values())`: a table value that no other value exceeds |
| Scoring.DaysPenalty | module/scoring.py:101-109 | no excess gives 0; an excess with an empty table fails with `max()`'s error; a listed excess gives its weight; an unlisted one gives the largest weight |
| Scoring.ScoreDaysOnCampus | module/scoring.py:82-109 | `day_weights` is read first, then `preferred_num_days`, each failing with its `KeyError`; otherwise the score is the penalty for the number of distinct on-campus days |
| Scoring.OnlineSectionIgnored | module/scoring.py:97 | an online section does not change the days on campus |
| Scoring.AddMandatoryBreak | module/scoring.py:111-130 | exactly one break record is appended at the end, exactly when some slot ends by the break start and some slot starts from the break end; otherwise the list is unchanged |
| Scoring.RoundHalfEven | module/scoring.py:157 | Python's `round`: the result is within one half of `x`, and a tie goes to the even neighbour |
| Scoring.RoundHalfEvenUnique | module/scoring.py:157 | any integer within one half of `x` that is even on a tie is `round(x)` |
| Scoring.GapSeconds | module/scoring.py:154 | the `.seconds` of the time difference: the forward gap, wrapping past midnight, in `[0, 86400)` |
| Scoring.ScoreGapsPerDay | module/scoring.py:132-160 | the score is the sum over consecutive pairs of `penalty * round(gap hours)` for each gap longer than the allowed minutes |
| Scoring.GapTotal | module/scoring.py:145-160 | a day with at most one slot scores 0; a non-negative rate gives a non-negative day score |
| Scoring.GapExamples | module/scoring.py:147-158 | with threshold 20 and rate 2: a 60-minute gap scores 2, a 30-minute gap 0, back-to-back sections 0 |
| Scoring.ReadGapSettings | module/scoring.py:174-178 | the settings are read exactly when `gap_weights` and its four keys are present; a missing `gap_weights` fails with its `KeyError` first |
| Scoring.Repeat | module/scoring.py:180 | `n` copies of a value |
| Scoring.ScheduledDayShape | module/scoring.py:197-201 | a day's slots end up sorted by start time; they are the section slots plus the break exactly when the day is M/W/F and the break conditions hold |
| Scoring.AddSectionSlots | module/scoring.py:182-195 | each known meeting day's list gets the section's slot appended when the section has both times; the other days are unchanged |
| Scoring.AppendSlots | module/scoring.py:187-195 | each known day listed by the section gets one slot for the section per listing, appended after its earlier slots; other days are unchanged |
| Scoring.BuildDaySlots | module/scoring.py:180-195 | every day code's list holds the slots of the timed sections meeting on that day, in section order |
| Scoring.ScoreDay | module/scoring.py:197-202 | one day's score is the gap score of its scheduled (break-added, sorted) slots |
| Scoring.ScoreGaps | module/scoring.py:162-204 | missing settings fail with the first missing key; otherwise the score is the sum over the seven days of their gap scores |
| Scoring.GapsOverFacts | module/scoring.py:197-204 | the score depends only on each day's slots and is non-negative for a non-negative rate |
| Scoring.GapScore | module/scoring.py:162-204 | a non-negative rate gives a non-negative gap score for the whole week |
| Scoring.UntimedSectionIgnored | module/scoring.py:183 | a section without both times does not change the gap score |
| Scoring.MinuteSumBounds | module/scoring.py:217 | a sum of minutes bounded per element is bounded by the count times the bounds |
| Scoring.AverageTime | module/scoring.py:206-221 | the average is a whole minute, and it is the floor of the mean minute of the day |
| Scoring.AverageTimeBetween | module/scoring.py:206-221 | the average lies between the smallest and largest input minute |
| Scoring.KeptDays | module/scoring.py:251-252 | every kept day has a non-empty list of times |
| Scoring.MinTime | module/scoring.py:258 | `min(times)`: a member no larger than any other |
| Scoring.MaxTime | module/scoring.py:259 | `max(times)`: a member no smaller than any other |
| Scoring.Earliest | module/scoring.py:258 | one value, the earliest start, for each kept day |
| Scoring.Latest | module/scoring.py:259 | one value, the latest end, for each kept day |
| Scoring.GroupedStep | module/scoring.py:245-248 | appending a section's time to one more of its days keeps the grouping invariant |
| Scoring.AddSectionTimes | module/scoring.py:241-248 | each known meeting day's lists get the section's start and end appended when the section has both times; the other days are unchanged |
| Scoring.AppendTimes | module/scoring.py:244-248 | each known day listed by the section gets the start and the end appended once per listing; other days are unchanged |
| Scoring.GroupTimesByDay | module/scoring.py:235-248 | the start and end lists per day hold the times of the timed sections meeting on that day, in section order |
| Scoring.ScoreConsistency | module/scoring.py:223-281 | a missing weight fails with `KeyError('consistency_penalty_weight')`; otherwise the scores are the weighted deviations of each day's earliest start and latest end from their averages |
| Scoring.DeviationNonNegative | module/scoring.py:270-271 | the total deviation is non-negative |
| Scoring.DeviationOfSteady | module/scoring.py:266-271 | times all at the average minute have no deviation |
| Scoring.ConsistencyNonNegative | module/scoring.py:254-281 | a non-negative weight gives non-negative start and end scores |
| Scoring.ConsistencyScores | module/scoring.py:223-281 | under a non-negative weight neither the start nor the end consistency score of a schedule is negative |
| Scoring.UntimedTimesOn | module/scoring.py:241 | sections without both times contribute no times |
| Scoring.KeptDaysNone | module/scoring.py:251-255 | with no times, no day is kept |
| Scoring.NoTimedSectionsNoPenalty | module/scoring.py:250-255 | a schedule without timed sections scores 0.0 and 0.0 |
| Scoring.SteadyStartsNoPenalty | module/scoring.py:258-274 | every day starting at the same minute, including a single day, gives a start score of 0 |
| Scoring.SteadyEndsNoPenalty | module/scoring.py:258-275 | every day ending at the same minute, including a single day, gives an end score of 0 |
| Scoring.TimesOnLength | module/scoring.py:247-248 | each day gets as many start times as end times |
| Scoring.KeptDaysAgree | module/scoring.py:251-254 | the days kept for starts are the days kept for ends |
| Scoring.FirstFailureAgrees | module/scoring.py:294-309 | a failing sub-score makes the combined score fail with the message the decorator recorded; without one, only a missing `weights`, `days`, `gaps` or `modality` key makes it fail |
| Scoring.CombinedScoreOf | module/scoring.py:283-323 | a combined score exists only when all five sub-scores succeed, and its parts are then exactly those sub-scores; a failing modality score, computed first, is the combined failure |
| Scoring.CombinedScore | module/scoring.py:283-323 | the sub-scores run in source order and the first failure ends the computation; otherwise the result is their weighted sum and parts; a failing sub-score is recorded under its own function name |
| Scoring.ShippedConfigFails | module/config.py:6-41 | under the shipped configuration, scoring any schedule fails with `KeyError('modality_preferences')` |
| Scoring.OptionalWeightsDefaultToOne | module/scoring.py:301-309 | an absent `sections_per_day`, `consistency_start_time` or `consistency_end_time` weight counts as 1 |
| Scoring.SubScoresNonNegative | module/scoring.py:294-298 | under non-negative settings every sub-score that succeeds is non-negative |
| Scoring.WeightedSumNonNegative | module/scoring.py:301-309 | non-negative weights of non-negative parts give a non-negative sum |
| Scoring.CombineRemaining | module/scoring.py:297-318 | with modality, days and gaps scored, sections per day and consistency run in that order and the first failure ends the computation; the result and the ledger agree with the whole combined score |
| Scoring.CombinedNonNegative | module/scoring.py:283-323 | under non-negative settings the combined score and all its parts are non-negative |
| Scoring.Outcomes | module/scoring.py:336-338 | the scoring outcome of each combination, in input order |
| Scoring.Failures | module/scoring.py:336-338 | the decorator's record for each combination, in input order |
| Scoring.Kept | module/scoring.py:336-339 | at most one kept pair per combination, and one for every combination exactly when no outcome failed |
| Scoring.Scored | module/scoring.py:336-339 | at most one scored pair per combination, and every combination is scored exactly when none fails to score |
| Scoring.FailuresLoggedStep | module/scoring.py:340-345 | a grown ledger that records the new failure keeps every earlier failure recorded |
| Scoring.KeptSnoc | module/scoring.py:339 | a successful combination is appended with its scores, and a failed one is dropped |
| Scoring.LedgerStep | module/scoring.py:340-345 | scoring one combination only grows the ledger, only under the scoring functions' names, and records its failure |
| Scoring.ScoreCombinations | module/scoring.py:325-349 | the result is the successfully scored pairs, stably sorted by combined score; every failure is recorded under `score_combinations` and by the decorator; only the scoring functions' entries grow |
| Scoring.KeptMembers | module/scoring.py:336-339 | a pair is kept exactly when some position holds its combination with a successful outcome giving its scores |
| Scoring.ScoredMembers | module/scoring.py:336-339 | a pair is scored exactly when its combination is an input whose scoring succeeds with those scores |
| Scoring.RankingFacts | module/scoring.py:348-349 | the ranking is non-decreasing in combined score, holds exactly the scored pairs, and keeps ties in input order |
| Scoring.AsWrittenLosesRanking | module/scoring.py:340-346 | as written, one failing combination makes the whole call fail with `NameError`, while the intended ranking still holds every combination that scores |
| Scoring.RankAsWritten | module/scoring.py:336-349 | as written, the call fails with `NameError` exactly when some combination fails to score; otherwise every combination is ranked |
| Scoring.ShippedRankingAsWritten | module/scoring.py:340-346 | under the shipped configuration, any non-empty input ends in `NameError` as written, and the intended ranking is empty |
| Scoring.NothingKept | module/scoring.py:336-345 | when every outcome fails, nothing is kept |
| Scoring.AsWrittenAgreesWithoutFailures | module/scoring.py:336-349 | when nothing fails, the handler is never entered and both versions agree |

## Findings

| source | as written | input that shows it | evidently intended | confidence | as-written member | corrected member |
|---|---|---|---|---|---|---|
| module/scoring.py:340-346 | the exception handler of `score_combinations` uses `errors` and `logger`, which `module/scoring.py` neither defines nor imports (it imports only `utils`, `parse_time` and `config`), so the handler raises `NameError` and the whole ranking is lost | any non-empty list of combinations under the shipped configuration, which lacks `modality_preferences` (`Scoring.ShippedRankingAsWritten`); generally, one failing combination among others that score (`Scoring.AsWrittenLosesRanking`) | record the message under `score_combinations`, drop that combination, and rank the rest | high; not executed | Scoring.RankAsWritten | Scoring.ScoreCombinations |

## Left out

- Timing and logging: `time_function`'s clock, `execution_times` and `total_execution_time`, the `print`/`logger` calls, and `print_summary`, `print_execution_summary` and `print_error_summary` have no counterpart. Only the decorator's error recording is modelled, as the `Ledger`.
- The database query behind `retrieve_section_info`, and its per-course `section_cache`, are not part of this model. They are replaced by the `Lookup` parameter. `Scheduling.FetchCoreq` models its result, or its failure, for one corequisite course.
- `module/plotting.py`, `assets/generate_db.py`, `main.py` and `mockup/mockup.py` are not part of this model: they draw, import data, or orchestrate.
- `parse_time` and `parse_date` (`strptime`) are taken as given. Times are seconds of the day and dates are day numbers.
  - A section's dates are always present. A missing date would make the full-mode sort compare `None` and raise; that path is not modelled.
  - The break times reach `_score_gaps` already parsed. An empty break-time string is not modelled.
- Scoring.ScoreConsistency: the scores are exact rationals. The final `round(x, 1)` and binary floating-point error are not modelled.
- Scoring.CombinedScore: the combined score is the exact weighted sum. The final `round(combined, 1)` is not modelled.
- Scheduling.ProcessBase: a failing full check is recorded under the generator's name with the message, `" in combination "`, and the names of the tuple's sections in parentheses. The source prints the tuple's `repr` there instead.
- Text.Strip and Text.Upper treat only ASCII whitespace and ASCII letters. Python's Unicode `strip` and `upper` are not modelled.
- Scheduling.AddCoreqs requires the base tuple to be annotated already, which holds at its only call site after the full check.
- A corequisite fetch that fails (the query raises, or it finds no rows) is not cached, as in the source. Such an id is queried again wherever it next occurs, so only successful fetches are promised to happen at most once.
- Scoring.WeightFor takes the first entry stored under a key, where a Python dict literal with a repeated key keeps the last. A dictionary has no repeated keys, and on such tables the two agree (`Scoring.WeightForUnique`); `Scoring.DaysPenalty` does not require distinct keys.
- In-place mutation is modelled as returned values. This covers `_add_mandatory_break`'s `append`, the in-place sorts in `has_time_conflict`, `_score_gaps` and `score_combinations`, and `parse_section_times`' writes into the section dictionaries. Aliasing between the caller's lists and dictionaries is therefore not modelled.
- `day_weights` is modelled as its list of entries in insertion order, since `dict.get` and `max(values())` depend only on those entries.
- The configuration is an immutable record. A key missing from it reads as `None` and fails with Python's `KeyError` text.
- The product of no course lists is one empty tuple, as in `itertools.product`. An empty course selection therefore yields one empty combination.
- Functions the tests import but the source does not define, and test calls whose arity differs from the code, are not modelled.
