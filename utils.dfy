/** The conflict detector and the helpers around it (module/utils.py). */
module Utils {
  import opened Wrappers
  import opened Text
  import opened Sorting
  import opened Sections

  // ---------------------------------------------------------------------------------------
  // The error ledger: `errors`, a map from the name of the failing function to the set of
  // distinct messages recorded for it.

  type Ledger = map<string, set<string>>

  /** Record `msg` under `stage`, creating the entry when it is missing; sets deduplicate. */
  function Record(ledger: Ledger, stage: string, msg: string): (r: Ledger)
    ensures r.Keys == ledger.Keys + {stage}
    ensures msg in r[stage]
    ensures forall k :: k in ledger ==> ledger[k] <= r[k]
    ensures forall k :: k in r ==> r[k] <= (if k in ledger then ledger[k] else {}) + {msg}
    ensures forall k :: k in r && k != stage ==> r[k] == ledger[k]
  {
    if stage in ledger then ledger[stage := ledger[stage] + {msg}] else ledger[stage := {msg}]
  }

  /** Every entry of `older` is still present, with at least the messages it had. */
  ghost predicate LedgerGrows(ledger: Ledger, older: Ledger)
  {
    forall k :: k in older ==> k in ledger && older[k] <= ledger[k]
  }

  // ---------------------------------------------------------------------------------------
  // time_difference_in_minutes

  /** Whole minutes from `t2` to `t1`, rounded down (`total_seconds() // 60`). */
  function TimeDifferenceInMinutes(t1: Time, t2: Time): (r: int)
    ensures r * 60 <= t1 - t2 < r * 60 + 60
  {
    (t1 - t2) / 60
  }

  /** The difference is zero for equal times, antisymmetric up to the rounding of a partial
      minute, and counts whole minutes exactly. */
  lemma TimeDifferenceFacts(t1: Time, t2: Time)
    ensures t1 == t2 ==> TimeDifferenceInMinutes(t1, t2) == 0
    ensures (t1 - t2) % 60 == 0 ==> TimeDifferenceInMinutes(t1, t2) == -TimeDifferenceInMinutes(t2, t1)
    ensures (t1 - t2) % 60 != 0 ==> TimeDifferenceInMinutes(t1, t2) == -TimeDifferenceInMinutes(t2, t1) - 1
  {
  }

  // ---------------------------------------------------------------------------------------
  // parse_section_times

  /** `set(Mtg_Days.split(', '))`, or the empty set when `Mtg_Days` is empty. */
  function ParseDays(mtgDays: string): (days: set<string>)
    ensures mtgDays == "" ==> days == {}
    ensures mtgDays != "" ==> forall d :: d in days <==> d in Split(mtgDays, ", ")
  {
    if mtgDays == "" then {} else set d | d in Split(mtgDays, ", ")
  }

  predicate Parsed(s: Section)
  {
    s.memo.startTime.Some? && s.memo.endTime.Some? && s.memo.startDate.Some?
    && s.memo.endDate.Some? && s.memo.days.Some?
  }

  /** Fill each absent `parsed_*` key from the raw field; present keys are left alone. */
  function ParseSectionTimes(s: Section): (r: Section)
    ensures Parsed(r)
    ensures r.(memo := s.memo) == s
    ensures s.memo.startTime.Some? ==> r.memo.startTime == s.memo.startTime
    ensures s.memo.endTime.Some? ==> r.memo.endTime == s.memo.endTime
    ensures s.memo.startDate.Some? ==> r.memo.startDate == s.memo.startDate
    ensures s.memo.endDate.Some? ==> r.memo.endDate == s.memo.endDate
    ensures s.memo.days.Some? ==> r.memo.days == s.memo.days
    ensures s.memo == NoMemo ==> r.memo == Memo(Some(s.sTime), Some(s.eTime), Some(s.sDate),
                                                Some(s.eDate), Some(ParseDays(s.mtgDays)))
  {
    var m := s.memo;
    s.(memo := Memo(
      if m.startTime.Some? then m.startTime else Some(s.sTime),
      if m.endTime.Some? then m.endTime else Some(s.eTime),
      if m.startDate.Some? then m.startDate else Some(s.sDate),
      if m.endDate.Some? then m.endDate else Some(s.eDate),
      if m.days.Some? then m.days else Some(ParseDays(s.mtgDays))))
  }

  /** A second call changes nothing; an annotated section is left as it is. */
  lemma ParseSectionTimesIdempotent(s: Section)
    ensures ParseSectionTimes(ParseSectionTimes(s)) == ParseSectionTimes(s)
    ensures Parsed(s) ==> ParseSectionTimes(s) == s
  {
  }

  /** `for section in sections: parse_section_times(section)`. */
  function ParseAll(sections: seq<Section>): (r: seq<Section>)
    ensures |r| == |sections|
    ensures forall k :: 0 <= k < |r| ==> r[k] == ParseSectionTimes(sections[k]) && Parsed(r[k])
  {
    seq(|sections|, k requires 0 <= k < |sections| => ParseSectionTimes(sections[k]))
  }

  lemma ParseAllOfParsed(sections: seq<Section>)
    requires forall k :: 0 <= k < |sections| ==> Parsed(sections[k])
    ensures ParseAll(sections) == sections
  {
  }

  // The value each `parsed_*` key holds once `parse_section_times` has run: the memoised one when
  // present, otherwise the one parsed from the raw field.

  function StartTimeOf(s: Section): Option<Time>
  {
    if s.memo.startTime.Some? then s.memo.startTime.value else s.sTime
  }

  function EndTimeOf(s: Section): Option<Time>
  {
    if s.memo.endTime.Some? then s.memo.endTime.value else s.eTime
  }

  function StartDateOf(s: Section): Date
  {
    if s.memo.startDate.Some? then s.memo.startDate.value else s.sDate
  }

  function EndDateOf(s: Section): Date
  {
    if s.memo.endDate.Some? then s.memo.endDate.value else s.eDate
  }

  function DaysOf(s: Section): set<string>
  {
    if s.memo.days.Some? then s.memo.days.value else ParseDays(s.mtgDays)
  }

  /** Annotating a section does not change any of its parsed values. */
  lemma ParsedValuesKept(s: Section)
    ensures var p := ParseSectionTimes(s);
      StartTimeOf(p) == StartTimeOf(s) && EndTimeOf(p) == EndTimeOf(s)
      && StartDateOf(p) == StartDateOf(s) && EndDateOf(p) == EndDateOf(s) && DaysOf(p) == DaysOf(s)
  {
  }

  /** A section has an end time whenever it has a start time (catalog rows always do). */
  predicate WellTimed(s: Section)
  {
    StartTimeOf(s).Some? ==> EndTimeOf(s).Some?
  }

  /** A section's active dates run forwards. */
  predicate WellDated(s: Section)
  {
    StartDateOf(s) <= EndDateOf(s)
  }

  // ---------------------------------------------------------------------------------------
  // check_time_conflict

  const LtNoneMsg := "'<' not supported between instances of 'datetime.time' and 'NoneType'"
  const GtNoneMsg := "'>' not supported between instances of 'NoneType' and 'datetime.time'"

  predicate SharesDay(a: Section, b: Section)
  {
    DaysOf(a) * DaysOf(b) != {}
  }

  /** Two sections clash: they share a meeting day, both have both times, and the half-open
      intervals [start, end) intersect. */
  predicate Clash(a: Section, b: Section)
  {
    && SharesDay(a, b)
    && StartTimeOf(a).Some? && EndTimeOf(a).Some? && StartTimeOf(b).Some? && EndTimeOf(b).Some?
    && StartTimeOf(a).value < EndTimeOf(b).value
    && EndTimeOf(a).value > StartTimeOf(b).value
  }

  /** The pairwise test on annotated sections. It raises (`Err`) when it has to compare a start
      time with a missing end time. */
  function CheckTimeConflict(a: Section, b: Section): (r: Result<bool>)
    requires Parsed(a) && Parsed(b)
    ensures r == Ok(true) <==> Clash(a, b)
    ensures !SharesDay(a, b) || StartTimeOf(a).None? || StartTimeOf(b).None? ==> r == Ok(false)
    ensures WellTimed(a) && WellTimed(b) ==> r.Ok?
  {
    if DaysOf(a) * DaysOf(b) == {} then Ok(false)
    else if StartTimeOf(a).None? || StartTimeOf(b).None? then Ok(false)
    else if EndTimeOf(b).None? then Err(LtNoneMsg)
    else if !(StartTimeOf(a).value < EndTimeOf(b).value) then Ok(false)
    else if EndTimeOf(a).None? then Err(GtNoneMsg)
    else Ok(EndTimeOf(a).value > StartTimeOf(b).value)
  }

  /** The test is symmetric for sections whose times come in pairs. */
  lemma CheckTimeConflictSymmetric(a: Section, b: Section)
    requires Parsed(a) && Parsed(b) && WellTimed(a) && WellTimed(b)
    ensures CheckTimeConflict(a, b) == CheckTimeConflict(b, a)
  {
  }

  /** A section meeting on Mondays between two times, without annotations. */
  function MondaySection(name: string, start: Time, end: Time): Section
  {
    Section(name, Some(start), Some(end), 0, 100, "M", "INPER", "", NoMemo)
  }

  /** Meetings that only touch (9:00-10:00 and 10:00-11:00) do not conflict; meetings that
      overlap by half an hour (8:00-9:00 and 8:30-9:30) do, in either order; a section without
      meeting times conflicts with nothing. */
  lemma CheckTimeConflictExamples()
    ensures var a := ParseSectionTimes(MondaySection("A", HM(9, 0), HM(10, 0)));
      var b := ParseSectionTimes(MondaySection("B", HM(10, 0), HM(11, 0)));
      CheckTimeConflict(a, b) == Ok(false) && CheckTimeConflict(b, a) == Ok(false)
    ensures var a := ParseSectionTimes(MondaySection("A", HM(8, 0), HM(9, 0)));
      var b := ParseSectionTimes(MondaySection("B", HM(8, 30), HM(9, 30)));
      CheckTimeConflict(a, b) == Ok(true) && CheckTimeConflict(b, a) == Ok(true)
    ensures forall b :: Parsed(b) ==>
      var online := ParseSectionTimes(Section("W", None, None, 0, 100, "M", "ONLIN", "", NoMemo));
      CheckTimeConflict(online, b) == Ok(false) && CheckTimeConflict(b, online) == Ok(false)
  {
    assert Split("M", ", ") == ["M"] by {
      assert IndexOf("M", ", ", 0) == 1;
    }
    assert ParseDays("M") == {"M"};
    var a := ParseSectionTimes(MondaySection("A", HM(8, 0), HM(9, 0)));
    var b := ParseSectionTimes(MondaySection("B", HM(8, 30), HM(9, 30)));
    assert "M" in DaysOf(a) * DaysOf(b);
  }

  // ---------------------------------------------------------------------------------------
  // has_time_conflict, incremental mode (a new section against a list)

  /** The verdict of the incremental mode: the first one other than "no conflict" along the
      list, or "no conflict" when there is none. */
  function FirstVerdict(s: seq<Section>, c: Section): Result<bool>
    requires AllParsed(s) && Parsed(c)
    decreases |s|
  {
    if s == [] then Ok(false)
    else if CheckTimeConflict(s[0], c) != Ok(false) then CheckTimeConflict(s[0], c)
    else FirstVerdict(s[1..], c)
  }

  /** The first verdict is "no conflict" exactly when every member passes, and otherwise the
      verdict of some member. */
  lemma {:induction false} FirstVerdictMeaning(s: seq<Section>, c: Section)
    requires AllParsed(s) && Parsed(c)
    ensures FirstVerdict(s, c) == Ok(false) <==> forall k :: 0 <= k < |s| ==> CheckTimeConflict(s[k], c) == Ok(false)
    ensures FirstVerdict(s, c) != Ok(false) ==> exists k :: 0 <= k < |s| && FirstVerdict(s, c) == CheckTimeConflict(s[k], c)
    decreases |s|
  {
    if s != [] && CheckTimeConflict(s[0], c) == Ok(false) {
      FirstVerdictMeaning(s[1..], c);
      assert forall k :: 1 <= k < |s| ==> s[k] == s[1..][k - 1];
    }
  }

  /** Check `newSection` against every member, in order, stopping at the first verdict other
      than "no conflict". Dates are not consulted and the list keeps its order. */
  method HasConflictWith(sections: seq<Section>, newSection: Section)
    returns (r: Result<bool>, annotated: seq<Section>, annotatedNew: Section)
    ensures annotated == ParseAll(sections) && annotatedNew == ParseSectionTimes(newSection)
    ensures r == FirstVerdict(annotated, annotatedNew)
    ensures r == Ok(false) <==>
      forall k :: 0 <= k < |annotated| ==> CheckTimeConflict(annotated[k], annotatedNew) == Ok(false)
    ensures r != Ok(false) ==>
      exists k :: 0 <= k < |annotated| && r == CheckTimeConflict(annotated[k], annotatedNew)
        && forall k' :: 0 <= k' < k ==> CheckTimeConflict(annotated[k'], annotatedNew) == Ok(false)
  {
    annotated := ParseAll(sections);
    annotatedNew := ParseSectionTimes(newSection);
    var k := 0;
    while k < |annotated|
      invariant 0 <= k <= |annotated|
      invariant forall k' :: 0 <= k' < k ==> CheckTimeConflict(annotated[k'], annotatedNew) == Ok(false)
      invariant FirstVerdict(annotated, annotatedNew) == FirstVerdict(annotated[k..], annotatedNew)
    {
      assert annotated[k..][1..] == annotated[k + 1..];
      var c := CheckTimeConflict(annotated[k], annotatedNew);
      if c != Ok(false) {
        return c, annotated, annotatedNew;
      }
      k := k + 1;
    }
    assert annotated[k..] == [];
    r := Ok(false);
  }

  // ---------------------------------------------------------------------------------------
  // has_time_conflict, full mode (all pairs of a list)

  /** The sort key `(parsed_start_date, parsed_end_date, parsed_start_time or 12:00 AM)`. */
  function DateKey(s: Section): seq<real>
  {
    [StartDateOf(s) as real, EndDateOf(s) as real,
     (if StartTimeOf(s).Some? then StartTimeOf(s).value else 0) as real]
  }

  /** The scan compares `s[p]` with a later `s[q]` unless `s[p]` ends before `s[q]` starts. */
  predicate Scanned(s: seq<Section>, p: int, q: int)
    requires 0 <= p < q < |s|
  {
    EndDateOf(s[p]) >= StartDateOf(s[q])
  }

  predicate AllParsed(s: seq<Section>)
  {
    forall k :: 0 <= k < |s| ==> Parsed(s[k])
  }

  /** Every pair the scan compares is free of conflict. */
  ghost predicate ScanClear(s: seq<Section>)
  {
    AllParsed(s) && forall p, q :: 0 <= p < q < |s| && Scanned(s, p, q) ==> CheckTimeConflict(s[p], s[q]) == Ok(false)
  }

  /** The closed date ranges of two sections intersect. */
  predicate DatesOverlap(a: Section, b: Section)
  {
    StartDateOf(a) <= EndDateOf(b) && StartDateOf(b) <= EndDateOf(a)
  }

  /** Every pair whose date ranges intersect is free of conflict. */
  ghost predicate OverlapClear(s: seq<Section>)
  {
    AllParsed(s) && forall p, q :: 0 <= p < q < |s| && DatesOverlap(s[p], s[q]) ==> CheckTimeConflict(s[p], s[q]) == Ok(false)
  }

  /** The pair `(p', q')` comes before `(p, q)` in the scan. */
  predicate ScanBefore(p': int, q': int, p: int, q: int)
  {
    p' < p || (p' == p && q' < q)
  }

  /** Start dates never decrease along the list. */
  predicate StartDatesSorted(s: seq<Section>)
  {
    forall p, q :: 0 <= p < q < |s| ==> StartDateOf(s[p]) <= StartDateOf(s[q])
  }

  lemma SortedByDateKey(s: seq<Section>)
    requires SortedBy(s, DateKey)
    ensures StartDatesSorted(s)
  {
    forall p, q | 0 <= p < q < |s| ensures StartDateOf(s[p]) <= StartDateOf(s[q]) {
      LexLeHead(DateKey(s[p]), DateKey(s[q]));
    }
  }

  /** What the full mode relies on about its sorted, annotated copy of the list. */
  lemma DateSortFacts(sections: seq<Section>)
    ensures var t := SortBy(ParseAll(sections), DateKey);
      && AllParsed(t) && StartDatesSorted(t)
      && ((forall k :: 0 <= k < |sections| ==> WellDated(sections[k]))
          ==> forall k :: 0 <= k < |t| ==> WellDated(t[k]))
      && ((forall k :: 0 <= k < |sections| ==> WellTimed(sections[k]))
          ==> forall k :: 0 <= k < |t| ==> WellTimed(t[k]))
  {
    var t := SortBy(ParseAll(sections), DateKey);
    SortedByDateKey(t);
    forall k | 0 <= k < |t|
      ensures Parsed(t[k])
      ensures (forall j :: 0 <= j < |sections| ==> WellDated(sections[j])) ==> WellDated(t[k])
      ensures (forall j :: 0 <= j < |sections| ==> WellTimed(sections[j])) ==> WellTimed(t[k])
    {
      SortedEntryFacts(sections, k);
    }
  }

  /** Each entry of the sorted copy is the parse of some input section. */
  lemma SortedEntryFacts(sections: seq<Section>, k: int)
    requires 0 <= k < |SortBy(ParseAll(sections), DateKey)|
    ensures var t := SortBy(ParseAll(sections), DateKey);
      && Parsed(t[k])
      && ((forall j :: 0 <= j < |sections| ==> WellDated(sections[j])) ==> WellDated(t[k]))
      && ((forall j :: 0 <= j < |sections| ==> WellTimed(sections[j])) ==> WellTimed(t[k]))
  {
    var u := ParseAll(sections);
    var t := SortBy(u, DateKey);
    assert t[k] in multiset(u);
    var j := Origin(u, t[k]);
    ParsedValuesKept(sections[j]);
  }

  /** An index at which `x` occurs in `u`. */
  function Origin(u: seq<Section>, x: Section): (k: nat)
    requires x in multiset(u)
    ensures k < |u| && u[k] == x
  {
    if u[0] == x then 0 else Origin(u[1..], x) + 1
  }

  /** Soundness of the early `break`: in a list sorted by start date whose sections have
      forward date ranges, the scan compares exactly the pairs whose date ranges intersect. */
  lemma ScanMatchesOverlap(s: seq<Section>, p: int, q: int)
    requires StartDatesSorted(s) && 0 <= p < q < |s|
    requires StartDateOf(s[q]) <= EndDateOf(s[q])
    ensures Scanned(s, p, q) <==> DatesOverlap(s[p], s[q])
  {
  }

  /** The verdict of the first pair the scan meets that is not "no conflict". */
  ghost predicate FirstScannedVerdict(s: seq<Section>, r: Result<bool>)
  {
    && AllParsed(s)
    && exists p, q ::
         && 0 <= p < q < |s| && Scanned(s, p, q)
         && r == CheckTimeConflict(s[p], s[q])
         && forall p', q' :: 0 <= p' < q' < |s| && Scanned(s, p', q') && ScanBefore(p', q', p, q)
              ==> CheckTimeConflict(s[p'], s[q']) == Ok(false)
  }

  /** The nested loops of the full mode from the pair `(i, j)` on: the inner loop leaves at
      the end of the list or at the first later section that starts after `s[i]` ends; the first
      verdict that is not "no conflict" is returned. */
  function ScanFrom(s: seq<Section>, i: nat, j: nat): Result<bool>
    requires AllParsed(s) && i < j
    decreases |s| - i, |s| - j
  {
    if i >= |s| then Ok(false)
    else if j >= |s| || EndDateOf(s[i]) < StartDateOf(s[j]) then ScanFrom(s, i + 1, i + 2)
    else if CheckTimeConflict(s[i], s[j]) != Ok(false) then CheckTimeConflict(s[i], s[j])
    else ScanFrom(s, i, j + 1)
  }

  /** The pair scan of the full mode over a list already sorted by start date. */
  method ScanSorted(s: seq<Section>) returns (r: Result<bool>)
    requires AllParsed(s) && StartDatesSorted(s)
    ensures r == ScanFrom(s, 0, 1)
    ensures r == Ok(false) <==> ScanClear(s)
    ensures r != Ok(false) ==> FirstScannedVerdict(s, r)
  {
    var i := 0;
    while i < |s|
      invariant 0 <= i <= |s|
      invariant forall p, q :: 0 <= p < i && p < q < |s| && Scanned(s, p, q)
                  ==> CheckTimeConflict(s[p], s[q]) == Ok(false)
      invariant ScanFrom(s, 0, 1) == ScanFrom(s, i, i + 1)
    {
      var j := i + 1;
      while j < |s|
        invariant i < j <= |s|
        invariant forall q :: i < q < j ==> Scanned(s, i, q) && CheckTimeConflict(s[i], s[q]) == Ok(false)
        invariant ScanFrom(s, 0, 1) == ScanFrom(s, i, j)
      {
        if EndDateOf(s[i]) < StartDateOf(s[j]) {
          assert forall q :: j <= q < |s| ==> !Scanned(s, i, q);
          break;
        }
        var c := CheckTimeConflict(s[i], s[j]);
        if c != Ok(false) {
          assert FirstScannedVerdict(s, c) by {
            assert Scanned(s, i, j);
          }
          return c;
        }
        j := j + 1;
      }
      i := i + 1;
    }
    r := Ok(false);
  }

  /** Sort the list by `DateKey` (in place in the original: the caller sees the new order) and
      scan pairs in order, leaving the inner loop once a later section starts after the current
      one ends; the result is the verdict of the first scanned pair that is not "no conflict". */
  method HasInternalConflict(sections: seq<Section>) returns (r: Result<bool>, sorted: seq<Section>)
    ensures sorted == SortBy(ParseAll(sections), DateKey)
    ensures AllParsed(sorted)
    ensures r == ScanFrom(sorted, 0, 1)
    ensures r == Ok(false) <==> ScanClear(sorted)
    ensures r != Ok(false) ==> FirstScannedVerdict(sorted, r)
    ensures (forall k :: 0 <= k < |sections| ==> WellDated(sections[k])) ==>
      (r == Ok(false) <==> OverlapClear(sorted))
    ensures (forall k :: 0 <= k < |sections| ==> WellDated(sections[k]) && WellTimed(sections[k])) ==>
      r == Ok(HasClashingPair(ParseAll(sections)))
  {
    sorted := SortBy(ParseAll(sections), DateKey);
    DateSortFacts(sections);
    r := ScanSorted(sorted);
    WellDatedClause(sections, sorted, r);
    NoClashClause(sections, sorted, r);
  }

  /** The last postcondition of `HasInternalConflict`, from the overlap characterisation. */
  lemma NoClashClause(sections: seq<Section>, sorted: seq<Section>, r: Result<bool>)
    requires sorted == SortBy(ParseAll(sections), DateKey)
    requires r != Ok(false) ==> FirstScannedVerdict(sorted, r)
    requires (forall k :: 0 <= k < |sections| ==> WellDated(sections[k])) ==>
      (r == Ok(false) <==> OverlapClear(sorted))
    ensures (forall k :: 0 <= k < |sections| ==> WellDated(sections[k]) && WellTimed(sections[k])) ==>
      r == Ok(HasClashingPair(ParseAll(sections)))
  {
    if forall k :: 0 <= k < |sections| ==> WellDated(sections[k]) && WellTimed(sections[k]) {
      DateSortFacts(sections);
      OverlapClearIffNoClash(sections);
      if r != Ok(false) {
        ScannedVerdictIsClash(sorted, r);
      }
    }
  }

  /** On sections whose times come in pairs the scan never raises: a verdict other than "no
      conflict" is a conflict. */
  lemma ScannedVerdictIsClash(s: seq<Section>, r: Result<bool>)
    requires FirstScannedVerdict(s, r) && r != Ok(false)
    requires forall k :: 0 <= k < |s| ==> WellTimed(s[k])
    ensures r == Ok(true)
  {
    var p, q :| 0 <= p < q < |s| && r == CheckTimeConflict(s[p], s[q]);
    assert WellTimed(s[p]) && WellTimed(s[q]);
  }

  /** On a list sorted by start date whose sections have forward date ranges, the scan's
      verdict of "no conflict" is the verdict over all date-overlapping pairs. */
  lemma ScanClearIffOverlapClear(s: seq<Section>)
    requires AllParsed(s) && StartDatesSorted(s)
    requires forall k :: 0 <= k < |s| ==> WellDated(s[k])
    ensures ScanClear(s) <==> OverlapClear(s)
  {
    if ScanClear(s) {
      forall p, q | 0 <= p < q < |s| && DatesOverlap(s[p], s[q])
        ensures CheckTimeConflict(s[p], s[q]) == Ok(false)
      {
        assert Scanned(s, p, q);
      }
    }
    if OverlapClear(s) {
      forall p, q | 0 <= p < q < |s| && Scanned(s, p, q)
        ensures CheckTimeConflict(s[p], s[q]) == Ok(false)
      {
        ScanMatchesOverlap(s, p, q);
      }
    }
  }

  /** The last postcondition of `HasInternalConflict`, from the scan characterisation. */
  lemma WellDatedClause(sections: seq<Section>, sorted: seq<Section>, r: Result<bool>)
    requires sorted == SortBy(ParseAll(sections), DateKey) && AllParsed(sorted)
    requires r == Ok(false) <==> ScanClear(sorted)
    ensures (forall k :: 0 <= k < |sections| ==> WellDated(sections[k])) ==>
      (r == Ok(false) <==> OverlapClear(sorted))
  {
    DateSortFacts(sections);
    if forall k :: 0 <= k < |sections| ==> WellDated(sections[k]) {
      ScanClearIffOverlapClear(sorted);
    }
  }

  // ---------------------------------------------------------------------------------------
  // The naive reference: some pair of members, in any order, has intersecting date ranges
  // and a conflict.

  ghost predicate PairClash(a: Section, b: Section)
  {
    Parsed(a) && Parsed(b) && DatesOverlap(a, b) && CheckTimeConflict(a, b) == Ok(true)
  }

  /** Two distinct members of the list (possibly equal as values) clash, in either order. */
  ghost predicate HasClashingPair(s: seq<Section>)
  {
    exists a, b :: multiset{a, b} <= multiset(s) && PairClash(a, b)
  }

  /** Two positions of a list give two distinct members of it. */
  lemma IndicesGivePair<T>(s: seq<T>, p: int, q: int)
    requires 0 <= p < q < |s|
    ensures multiset{s[p], s[q]} <= multiset(s)
  {
    assert s == s[..p] + [s[p]] + s[p + 1..q] + [s[q]] + s[q + 1..];
  }

  /** Two distinct members of a list sit at two positions, in one order or the other. */
  lemma {:induction false} PairGivesIndices<T>(s: seq<T>, a: T, b: T)
    requires multiset{a, b} <= multiset(s)
    ensures exists p, q :: 0 <= p < q < |s| && ((s[p] == a && s[q] == b) || (s[p] == b && s[q] == a))
    decreases |s|
  {
    assert a in multiset(s);
    var r := s[1..];
    assert s == [s[0]] + r;
    if s[0] == a {
      assert b in multiset(r);
      var q :| 0 <= q < |r| && r[q] == b;
      assert s[0] == a && s[q + 1] == b;
    } else if s[0] == b {
      assert a in multiset(r);
      var q :| 0 <= q < |r| && r[q] == a;
      assert s[0] == b && s[q + 1] == a;
    } else {
      assert multiset{a, b} <= multiset(r);
      PairGivesIndices(r, a, b);
      var p, q :| 0 <= p < q < |r| && ((r[p] == a && r[q] == b) || (r[p] == b && r[q] == a));
      assert s[p + 1] == r[p] && s[q + 1] == r[q];
    }
  }

  ghost predicate AllWellTimed(s: seq<Section>)
  {
    forall k :: 0 <= k < |s| ==> Parsed(s[k]) && WellTimed(s[k])
  }

  /** With paired times, "no conflict" over the date-overlapping pairs of a list is the absence
      of a clashing pair of its members. */
  lemma OverlapClearIffNoClashingPair(s: seq<Section>)
    requires AllParsed(s) && forall k :: 0 <= k < |s| ==> WellTimed(s[k])
    ensures OverlapClear(s) <==> !HasClashingPair(s)
  {
    if !OverlapClear(s) {
      var p, q :| 0 <= p < q < |s| && DatesOverlap(s[p], s[q])
                  && CheckTimeConflict(s[p], s[q]) != Ok(false);
      assert PairClash(s[p], s[q]);
      IndicesGivePair(s, p, q);
    }
    if OverlapClear(s) {
      OverlapClearNoClashingPair(s);
    }
  }

  /** Whatever the times: "no conflict" over the date-overlapping pairs of a list rules out a
      clashing pair of its members. */
  lemma OverlapClearNoClashingPair(s: seq<Section>)
    requires OverlapClear(s)
    ensures !HasClashingPair(s)
  {
    forall a, b | multiset{a, b} <= multiset(s) ensures !PairClash(a, b) {
      PairGivesIndices(s, a, b);
      var p, q :| 0 <= p < q < |s| && ((s[p] == a && s[q] == b) || (s[p] == b && s[q] == a));
      assert DatesOverlap(s[p], s[q]) ==> CheckTimeConflict(s[p], s[q]) == Ok(false);
      assert DaysOf(a) * DaysOf(b) == DaysOf(b) * DaysOf(a);
    }
  }

  /** The key theorem about the full mode: for sections with forward date ranges and paired
      times, "no conflict" over the date-overlapping pairs of the sorted list is the absence of
      a clashing pair of members of the input. */
  lemma OverlapClearIffNoClash(sections: seq<Section>)
    requires forall k :: 0 <= k < |sections| ==> WellDated(sections[k]) && WellTimed(sections[k])
    ensures var sorted := SortBy(ParseAll(sections), DateKey);
      AllParsed(sorted) && (OverlapClear(sorted) <==> !HasClashingPair(ParseAll(sections)))
  {
    var sorted := SortBy(ParseAll(sections), DateKey);
    DateSortFacts(sections);
    OverlapClearIffNoClashingPair(sorted);
    assert multiset(sorted) == multiset(ParseAll(sections));
  }

  // ---------------------------------------------------------------------------------------
  // sort_combination

  /** `day_to_number`, with 8 for an unknown day. */
  function DayNumber(day: string): (n: int)
    ensures 0 <= n <= 6 || n == 8
    ensures n == 8 <==> day !in Days
  {
    if day == "M" then 0 else if day == "T" then 1 else if day == "W" then 2
    else if day == "TH" then 3 else if day == "F" then 4 else if day == "S" then 5
    else if day == "SU" then 6 else 8
  }

  function CharCodes(s: string): seq<real>
  {
    seq(|s|, k requires 0 <= k < |s| => (s[k] as int) as real)
  }

  /** `(7, Name)` for a section without meeting days; otherwise the number of its first
      meeting day and its start time (midnight when it has none). */
  function CombinationKey(s: Section): seq<real>
  {
    if s.mtgDays == "" then [7.0] + CharCodes(s.name)
    else
      [DayNumber(Split(s.mtgDays, ", ")[0]) as real,
       (if s.sTime.Some? then s.sTime.value else 0) as real]
  }

  /** `sort_combination`: a new list, a permutation of the combination, ordered by meeting day
      and start time. */
  function SortCombination(combination: seq<Section>): (r: seq<Section>)
    ensures multiset(r) == multiset(combination)
    ensures SortedBy(r, CombinationKey)
  {
    SortBy(combination, CombinationKey)
  }

  /** A section without meeting days comes after every section whose first day is a weekday. */
  lemma NoDaysSectionsComeLast(combination: seq<Section>, p: int, q: int)
    requires 0 <= p < |SortCombination(combination)| && 0 <= q < |SortCombination(combination)|
    requires SortCombination(combination)[p].mtgDays == ""
    requires var s := SortCombination(combination)[q];
      s.mtgDays != "" && Split(s.mtgDays, ", ")[0] in Days
    ensures q < p
  {
    var r := SortCombination(combination);
    if p < q {
      LexLeHead(CombinationKey(r[p]), CombinationKey(r[q]));
    }
  }
}
