/** The scoring engine and the ranker (module/scoring.py): the sub-scores of a combination of
    sections, their weighted sum, and the stable ascending sort of the scored combinations. */
module Scoring {
  import opened Wrappers
  import opened Text
  import opened Sorting
  import opened Sections
  import opened Config
  import opened Utils

  /** The day codes the engine knows, as a set. */
  const DaySet: set<string> := set d | d in Days

  // ---------------------------------------------------------------------------------------
  // _extract_meeting_days

  /** The `Mtg_Days` pieces split on `','` and stripped: none for an empty field, and
      otherwise one day per comma-separated piece. */
  function ExtractMeetingDays(s: Section): (r: seq<string>)
    ensures s.mtgDays == "" ==> r == []
    ensures s.mtgDays != "" ==> |r| == |Split(s.mtgDays, ",")|
  {
    if s.mtgDays == "" then [] else StripAll(Split(s.mtgDays, ","))
  }

  /** Each piece, stripped. */
  function StripAll(pieces: seq<string>): (r: seq<string>)
    ensures |r| == |pieces| && forall i :: 0 <= i < |pieces| ==> r[i] == Strip(pieces[i])
  {
    if pieces == [] then [] else StripAll(pieces[..|pieces| - 1]) + [Strip(pieces[|pieces| - 1])]
  }

  /** A text with no whitespace at either end is its own stripped form. */
  lemma StripUnpadded(s: string)
    requires |s| > 0 ==> !IsSpace(s[0]) && !IsSpace(s[|s| - 1])
    ensures Strip(s) == s
  {
  }

  /** Every character of a joined piece is a character of the joined text. */
  lemma {:induction false} JoinKeepsChars(pieces: seq<string>, sep: string, i: int, k: int)
    requires 0 <= i < |pieces| && 0 <= k < |pieces[i]|
    ensures pieces[i][k] in Join(pieces, sep)
    decreases |pieces|
  {
    if |pieces| > 1 {
      if i == 0 {
        assert Join(pieces, sep) == pieces[0] + (sep + Join(pieces[1..], sep));
      } else {
        JoinKeepsChars(pieces[1..], sep, i - 1, k);
      }
    }
  }

  /** Each extracted day is free of whitespace at its ends; for a field written without
      whitespace, joining the days back with `','` gives the field. */
  lemma MeetingDaysShape(s: Section)
    ensures forall i :: 0 <= i < |ExtractMeetingDays(s)| ==>
      var d := ExtractMeetingDays(s)[i];
      |d| > 0 ==> !IsSpace(d[0]) && !IsSpace(d[|d| - 1])
    ensures s.mtgDays == "" <==> ExtractMeetingDays(s) == []
    ensures (forall c :: c in s.mtgDays ==> !IsSpace(c)) ==> Join(ExtractMeetingDays(s), ",") == s.mtgDays
  {
    MeetingDaysUnpadded(s);
    if s.mtgDays != "" {
      assert |ExtractMeetingDays(s)| == |Split(s.mtgDays, ",")| > 0;
      if forall c :: c in s.mtgDays ==> !IsSpace(c) {
        UnspacedDaysArePieces(s);
        JoinSplit(s.mtgDays, ",");
      }
    }
  }

  lemma MeetingDaysUnpadded(s: Section)
    ensures forall i :: 0 <= i < |ExtractMeetingDays(s)| ==>
      var d := ExtractMeetingDays(s)[i];
      |d| > 0 ==> !IsSpace(d[0]) && !IsSpace(d[|d| - 1])
  {
    var days := ExtractMeetingDays(s);
    forall i | 0 <= i < |days|
      ensures var d := days[i]; |d| > 0 ==> !IsSpace(d[0]) && !IsSpace(d[|d| - 1])
    {
      StripShape(Split(s.mtgDays, ",")[i]);
    }
  }

  lemma UnspacedDaysArePieces(s: Section)
    requires s.mtgDays != "" && forall c :: c in s.mtgDays ==> !IsSpace(c)
    ensures ExtractMeetingDays(s) == Split(s.mtgDays, ",")
  {
    var pieces := Split(s.mtgDays, ",");
    var days := ExtractMeetingDays(s);
    JoinSplit(s.mtgDays, ",");
    forall i | 0 <= i < |pieces| ensures days[i] == pieces[i] {
      UnspacedPiece(pieces, ",", i);
    }
  }

  /** A piece of a text without whitespace is its own stripped form. */
  lemma UnspacedPiece(pieces: seq<string>, sep: string, i: int)
    requires 0 <= i < |pieces| && forall c :: c in Join(pieces, sep) ==> !IsSpace(c)
    ensures Strip(pieces[i]) == pieces[i]
  {
    if |pieces[i]| > 0 {
      JoinKeepsChars(pieces, sep, i, 0);
      JoinKeepsChars(pieces, sep, i, |pieces[i]| - 1);
    }
    StripUnpadded(pieces[i]);
  }

  // ---------------------------------------------------------------------------------------
  // _score_max_sections_per_day

  /** The number of times `d` occurs in `days`. */
  function Occurrences(days: seq<string>, d: string): nat
  {
    if days == [] then 0
    else Occurrences(days[..|days| - 1], d) + (if days[|days| - 1] == d then 1 else 0)
  }

  lemma {:induction false} OccurrencesAbsent(days: seq<string>, d: string)
    requires d !in days
    ensures Occurrences(days, d) == 0
  {
    if days != [] {
      OccurrencesAbsent(days[..|days| - 1], d);
    }
  }

  /** How many meetings on day `d` the sections of `c` have, a section listing a day twice
      counting twice. */
  function DayCount(c: seq<Section>, d: string): nat
  {
    if c == [] then 0 else DayCount(c[..|c| - 1], d) + Occurrences(ExtractMeetingDays(c[|c| - 1]), d)
  }

  /** The `day_count` dictionary: the meetings of `c` on each known day. */
  function DayCounts(c: seq<Section>): map<string, int>
  {
    map d | d in DaySet :: DayCount(c, d)
  }

  /** The excess of `counts` over `maxPerDay`, summed over the days `ds`. */
  function ExcessOver(counts: map<string, int>, maxPerDay: int, ds: seq<string>): int
    requires forall d :: d in ds ==> d in counts
  {
    if ds == [] then 0
    else
      var n := counts[ds[|ds| - 1]];
      ExcessOver(counts, maxPerDay, ds[..|ds| - 1]) + (if n > maxPerDay then n - maxPerDay else 0)
  }

  /** The score: the excess over `maxPerDay`, summed over the seven days. It is never
      negative, and it is zero exactly when no day has more meetings than preferred. */
  function SectionsExcess(c: seq<Section>, maxPerDay: int): (r: int)
    ensures r >= 0
    ensures r == 0 <==> forall d :: d in Days ==> DayCount(c, d) <= maxPerDay
  {
    var counts := DayCounts(c);
    ExcessOverFacts(counts, maxPerDay, Days);
    assert (forall i :: 0 <= i < |Days| ==> counts[Days[i]] <= maxPerDay)
      <==> forall d :: d in Days ==> DayCount(c, d) <= maxPerDay;
    ExcessOver(counts, maxPerDay, Days)
  }

  /** `str(TypeError)` of comparing a count with the missing setting. */
  const CompareNoneMsg := "'>' not supported between instances of 'int' and 'NoneType'"

  /** `_score_max_sections_per_day`: count the meetings per known day, then sum the excesses.
      A missing setting (`config.get` gives `None`) makes the first comparison raise. */
  method ScoreMaxSectionsPerDay(config: Config, combination: seq<Section>) returns (r: Result<int>)
    ensures config.preferredMaxSectionsPerDay.None? ==> r == Err(CompareNoneMsg)
    ensures config.preferredMaxSectionsPerDay.Some? ==>
      r == Ok(SectionsExcess(combination, config.preferredMaxSectionsPerDay.value))
  {
    var maxPerDay := config.preferredMaxSectionsPerDay;
    var counts := CountMeetings(combination);
    if maxPerDay.None? {
      return Err(CompareNoneMsg);
    }
    var score := SumExcess(counts, maxPerDay.value);
    r := Ok(score);
  }

  /** The summing loop of `_score_max_sections_per_day`, over the days in order. */
  method SumExcess(counts: map<string, int>, maxPerDay: int) returns (score: int)
    requires counts.Keys == DaySet
    ensures score == ExcessOver(counts, maxPerDay, Days)
  {
    score := 0;
    for k := 0 to |Days|
      invariant score == ExcessOver(counts, maxPerDay, Days[..k])
    {
      var count := counts[Days[k]];
      if count > maxPerDay {
        score := score + (count - maxPerDay);
      }
      assert Days[..k + 1][..k] == Days[..k];
    }
    assert Days[..|Days|] == Days;
  }

  /** The counting loop of `_score_max_sections_per_day`: every meeting of every section on a
      known day adds one to that day's count. */
  method CountMeetings(combination: seq<Section>) returns (counts: map<string, int>)
    ensures counts == DayCounts(combination)
  {
    counts := map d | d in DaySet :: 0;
    for i := 0 to |combination|
      invariant counts.Keys == DaySet
      invariant forall d :: d in DaySet ==> counts[d] == DayCount(combination[..i], d)
    {
      counts := AddMeetings(counts, ExtractMeetingDays(combination[i]));
      assert combination[..i + 1][..i] == combination[..i];
    }
    assert combination[..|combination|] == combination;
  }

  /** One section's meetings: each listed known day's count goes up by one per listing. */
  method AddMeetings(counts0: map<string, int>, days: seq<string>) returns (counts: map<string, int>)
    requires counts0.Keys == DaySet
    ensures counts.Keys == DaySet
    ensures forall d :: d in DaySet ==> counts[d] == counts0[d] + Occurrences(days, d)
  {
    counts := counts0;
    for j := 0 to |days|
      invariant counts.Keys == DaySet
      invariant forall d :: d in DaySet ==> counts[d] == counts0[d] + Occurrences(days[..j], d)
    {
      forall d | d in DaySet {
        OccurrencesStep(days, j, d);
      }
      if days[j] in counts {
        counts := counts[days[j] := counts[days[j]] + 1];
      }
    }
    assert days[..|days|] == days;
  }

  lemma {:induction false} ExcessOverFacts(counts: map<string, int>, maxPerDay: int, ds: seq<string>)
    requires forall d :: d in ds ==> d in counts
    ensures ExcessOver(counts, maxPerDay, ds) >= 0
    ensures ExcessOver(counts, maxPerDay, ds) == 0 <==> forall i :: 0 <= i < |ds| ==> counts[ds[i]] <= maxPerDay
  {
    if ds != [] {
      var init := ds[..|ds| - 1];
      ExcessOverFacts(counts, maxPerDay, init);
      assert forall i :: 0 <= i < |init| ==> init[i] == ds[i];
    }
  }

  /** A section that meets on no known day code does not change the score. */
  lemma UnknownDaysIgnored(c: seq<Section>, s: Section, maxPerDay: int)
    requires forall d :: d in ExtractMeetingDays(s) ==> d !in DaySet
    ensures SectionsExcess(c + [s], maxPerDay) == SectionsExcess(c, maxPerDay)
  {
    forall d | d in DaySet ensures DayCount(c + [s], d) == DayCount(c, d) {
      assert (c + [s])[..|c|] == c;
      OccurrencesAbsent(ExtractMeetingDays(s), d);
    }
    assert DayCounts(c + [s]) == DayCounts(c);
  }

  /** An empty combination scores 0 under any non-negative preference. */
  lemma EmptyCombinationNoExcess(maxPerDay: int)
    requires maxPerDay >= 0
    ensures SectionsExcess([], maxPerDay) == 0
  {
  }

  // ---------------------------------------------------------------------------------------
  // _score_modality

  /** The course of a section: the first two `'-'`-separated fields of its name. */
  function CourseName(name: string): string
  {
    var parts := Split(name, "-");
    Join(parts[..if |parts| < 2 then |parts| else 2], "-")
  }

  /** The course has a (non-empty) preferred modality and the section's method differs. */
  predicate Mismatch(s: Section, prefs: map<string, string>)
  {
    var course := CourseName(s.name);
    course in prefs && prefs[course] != "" && s.instructionMethod != prefs[course]
  }

  /** The number of sections of `c` that do not meet their course's preferred modality: at
      most their number, zero when no section's course has a preference, and every section
      when each one's method differs from its course's preference. */
  function MismatchCount(c: seq<Section>, prefs: map<string, string>): (r: nat)
    ensures r <= |c|
    ensures (forall i :: 0 <= i < |c| ==> CourseName(c[i].name) !in prefs) ==> r == 0
    ensures (forall i :: 0 <= i < |c| ==> Mismatch(c[i], prefs)) ==> r == |c|
  {
    if c == [] then 0
    else
      var init := c[..|c| - 1];
      assert forall i :: 0 <= i < |init| ==> init[i] == c[i];
      MismatchCount(init, prefs) + (if Mismatch(c[|c| - 1], prefs) then 1 else 0)
  }

  lemma MismatchCountSnoc(c: seq<Section>, i: nat, prefs: map<string, string>)
    requires i < |c|
    ensures MismatchCount(c[..i + 1], prefs) == MismatchCount(c[..i], prefs) + if Mismatch(c[i], prefs) then 1 else 0
  {
    assert c[..i + 1][..i] == c[..i];
  }

  /** `_score_modality`; the preferences are read before anything else. */
  method ScoreModality(config: Config, combination: seq<Section>) returns (r: Result<int>)
    ensures config.modalityPreferences.None? ==> r == Err(KeyError("modality_preferences"))
    ensures config.modalityPreferences.Some? ==>
      r == Ok(MismatchCount(combination, config.modalityPreferences.value))
  {
    if config.modalityPreferences.None? {
      return Err(KeyError("modality_preferences"));
    }
    var prefs := config.modalityPreferences.value;
    var score := 0;
    for i := 0 to |combination|
      invariant score == MismatchCount(combination[..i], prefs)
    {
      var section := combination[i];
      var course := CourseName(section.name);
      MismatchCountSnoc(combination, i, prefs);
      if course in prefs && prefs[course] != "" && section.instructionMethod != prefs[course] {
        score := score + 1;
      }
    }
    assert combination[..|combination|] == combination;
    r := Ok(score);
  }

  // ---------------------------------------------------------------------------------------
  // _score_days_on_campus

  /** The distinct meeting days (any code) of the sections of `c` that are not online: a day
      is on campus exactly when some section that is not online meets on it. */
  function CampusDays(c: seq<Section>): (r: set<string>)
    ensures forall d :: d in r <==>
      exists i :: 0 <= i < |c| && c[i].instructionMethod != "ONLIN" && d in ExtractMeetingDays(c[i])
  {
    UnionOfAll(c, InPersonDays);
    UnionOf(c, InPersonDays)
  }

  /** The days on which section `s` brings the student to campus. */
  function InPersonDays(s: Section): (r: set<string>)
    ensures forall d :: d in r <==> s.instructionMethod != "ONLIN" && d in ExtractMeetingDays(s)
  {
    if s.instructionMethod != "ONLIN" then DaySetOf(ExtractMeetingDays(s)) else {}
  }

  /** The union of `f(x)` over the elements of `xs`, accumulated in order. */
  function UnionOf<T>(xs: seq<T>, f: T -> set<string>): set<string>
  {
    if xs == [] then {} else UnionOf(xs[..|xs| - 1], f) + f(xs[|xs| - 1])
  }

  lemma {:induction false} UnionOfMembers<T>(xs: seq<T>, f: T -> set<string>, d: string)
    ensures d in UnionOf(xs, f) <==> exists i :: 0 <= i < |xs| && d in f(xs[i])
  {
    if xs != [] {
      var n := |xs| - 1;
      var init := xs[..n];
      UnionOfMembers(init, f, d);
      if i :| 0 <= i < n && d in f(xs[i]) {
        assert init[i] == xs[i];
      }
      if i :| 0 <= i < |init| && d in f(init[i]) {
        assert init[i] == xs[i];
      }
    }
  }

  lemma UnionOfAll<T>(xs: seq<T>, f: T -> set<string>)
    ensures forall d :: d in UnionOf(xs, f) <==> exists i :: 0 <= i < |xs| && d in f(xs[i])
  {
    forall d {
      UnionOfMembers(xs, f, d);
    }
  }

  /** `set(days)`. */
  function DaySetOf(days: seq<string>): (r: set<string>)
    ensures forall d :: d in r <==> d in days
  {
    if days == [] then {} else DaySetOf(days[..|days| - 1]) + {days[|days| - 1]}
  }

  /** `table.get(key)`: the weight stored for `key`, if any. */
  function WeightFor(table: seq<(int, int)>, key: int): (r: Option<int>)
    ensures r.Some? <==> exists i :: 0 <= i < |table| && table[i].0 == key
    ensures r.Some? ==> exists i :: 0 <= i < |table| && table[i] == (key, r.value)
  {
    if table == [] then None
    else if table[0].0 == key then Some(table[0].1)
    else
      var rest := WeightFor(table[1..], key);
      assert rest.Some? ==> exists i :: 0 <= i < |table[1..]| && table[1..][i] == (key, rest.value);
      rest
  }

  /** A table that a dictionary can stand for: no key appears twice. */
  predicate DistinctKeys(table: seq<(int, int)>)
  {
    forall i, j :: 0 <= i < j < |table| ==> table[i].0 != table[j].0
  }

  /** On a table with distinct keys the lookup returns the one entry stored under the key, as a
      dictionary does. */
  lemma {:induction false} WeightForUnique(table: seq<(int, int)>, i: int)
    requires DistinctKeys(table) && 0 <= i < |table|
    ensures WeightFor(table, table[i].0) == Some(table[i].1)
    decreases |table|
  {
    if i > 0 {
      assert table[0].0 != table[i].0;
      assert table[1..][i - 1] == table[i];
      assert DistinctKeys(table[1..]) by {
        forall p, q | 0 <= p < q < |table| - 1 ensures table[1..][p].0 != table[1..][q].0 {
          assert table[1..][p] == table[p + 1] && table[1..][q] == table[q + 1];
        }
      }
      WeightForUnique(table[1..], i - 1);
    }
  }

  /** `max(table.values())` over a non-empty table. */
  function MaxWeight(table: seq<(int, int)>): (r: int)
    requires table != []
    ensures (exists i :: 0 <= i < |table| && table[i].1 == r) && forall i :: 0 <= i < |table| ==> table[i].1 <= r
  {
    if |table| == 1 then table[0].1
    else
      var m := MaxWeight(table[1..]);
      assert forall i :: 1 <= i < |table| ==> table[i] == table[1..][i - 1];
      if table[0].1 >= m then table[0].1 else m
  }

  /** `str(ValueError)` of `max` over no values. */
  const EmptyMaxMsg := "max() arg is an empty sequence"

  /** The penalty for `numDays` days on campus: 0 within the preference, otherwise the weight
      of the excess, or the largest weight when the table has no entry for it. The default
      `max(...)` is evaluated before the lookup, so an empty table raises. */
  function DaysPenalty(dayWeights: seq<(int, int)>, preferred: int, numDays: nat): (r: Result<int>)
    ensures numDays <= preferred ==> r == Ok(0)
    ensures numDays > preferred ==> (r.Err? <==> dayWeights == [])
    ensures numDays > preferred && r.Ok? ==> exists i :: 0 <= i < |dayWeights| && dayWeights[i].1 == r.value
    ensures numDays > preferred && WeightFor(dayWeights, numDays - preferred).Some? ==>
      r == Ok(WeightFor(dayWeights, numDays - preferred).value)
    ensures numDays > preferred && WeightFor(dayWeights, numDays - preferred).None? && r.Ok? ==>
      forall i :: 0 <= i < |dayWeights| ==> dayWeights[i].1 <= r.value
  {
    var excess := numDays - preferred;
    if excess > 0 then
      if dayWeights == [] then Err(EmptyMaxMsg)
      else
        var fallback := MaxWeight(dayWeights);
        var w := WeightFor(dayWeights, excess);
        Ok(if w.Some? then w.value else fallback)
    else Ok(0)
  }

  /** The collecting loop of `_score_days_on_campus`: the meeting days of every section that
      is not online, gathered into a set. */
  method CollectCampusDays(combination: seq<Section>) returns (daysOnCampus: set<string>)
    ensures daysOnCampus == CampusDays(combination)
  {
    daysOnCampus := {};
    for i := 0 to |combination|
      invariant daysOnCampus == UnionOf(combination[..i], InPersonDays)
    {
      if combination[i].instructionMethod != "ONLIN" {
        var meetingDays := ExtractMeetingDays(combination[i]);
        daysOnCampus := daysOnCampus + DaySetOf(meetingDays);
      }
      assert combination[..i + 1][..i] == combination[..i];
    }
    assert combination[..|combination|] == combination;
  }

  /** `_score_days_on_campus`: collect the meeting days of the sections that are not online,
      then price their number. `day_weights` is read first, `preferred_num_days` second. */
  method ScoreDaysOnCampus(config: Config, combination: seq<Section>) returns (r: Result<int>)
    ensures config.dayWeights.None? ==> r == Err(KeyError("day_weights"))
    ensures config.dayWeights.Some? && config.preferredNumDays.None? ==> r == Err(KeyError("preferred_num_days"))
    ensures config.dayWeights.Some? && config.preferredNumDays.Some? ==>
      r == DaysPenalty(config.dayWeights.value, config.preferredNumDays.value, |CampusDays(combination)|)
  {
    if config.dayWeights.None? {
      return Err(KeyError("day_weights"));
    }
    if config.preferredNumDays.None? {
      return Err(KeyError("preferred_num_days"));
    }
    var daysOnCampus := CollectCampusDays(combination);
    r := DaysPenalty(config.dayWeights.value, config.preferredNumDays.value, |daysOnCampus|);
  }

  /** Online sections never count towards the days on campus. */
  lemma OnlineSectionIgnored(c: seq<Section>, s: Section)
    requires s.instructionMethod == "ONLIN"
    ensures CampusDays(c + [s]) == CampusDays(c)
  {
    assert (c + [s])[..|c|] == c;
  }

  // ---------------------------------------------------------------------------------------
  // _add_mandatory_break

  /** One entry of a day's schedule: a section's meeting on that day, or the break. */
  datatype Slot = Slot(name: string, start: Time, end: Time, day: string)

  function BreakSlot(breakStart: Time, breakEnd: Time): Slot
  {
    Slot("Mandatory Break", breakStart, breakEnd, "Mandatory")
  }

  /** Some entry ends by `t`. */
  predicate EndsBy(slots: seq<Slot>, t: Time)
  {
    exists i :: 0 <= i < |slots| && slots[i].end <= t
  }

  /** Some entry starts at or after `t`. */
  predicate StartsFrom(slots: seq<Slot>, t: Time)
  {
    exists i :: 0 <= i < |slots| && slots[i].start >= t
  }

  /** `_add_mandatory_break`: the break is appended, once and at the end, exactly when the day
      has a meeting that ends by the break's start and one that starts at or after its end. */
  function AddMandatoryBreak(daySlots: seq<Slot>, breakStart: Time, breakEnd: Time): (r: seq<Slot>)
    ensures |r| == |daySlots| + 1 <==> EndsBy(daySlots, breakStart) && StartsFrom(daySlots, breakEnd)
    ensures |r| == |daySlots| || |r| == |daySlots| + 1
    ensures r[..|daySlots|] == daySlots
    ensures |r| > |daySlots| ==> r[|daySlots|] == BreakSlot(breakStart, breakEnd)
  {
    if EndsBy(daySlots, breakStart) && StartsFrom(daySlots, breakEnd) then
      daySlots + [BreakSlot(breakStart, breakEnd)]
    else daySlots
  }

  // ---------------------------------------------------------------------------------------
  // _score_gaps_per_day

  /** Python's `round(x)`: the nearest integer, ties going to the even one. */
  function RoundHalfEven(x: real): (n: int)
    ensures -0.5 <= x - n as real <= 0.5
    ensures (x - n as real == 0.5 || x - n as real == -0.5) ==> n % 2 == 0
  {
    var f := x.Floor;
    var d := x - f as real;
    if d < 0.5 then f
    else if d > 0.5 then f + 1
    else if f % 2 == 0 then f else f + 1
  }

  /** The rounding is determined by those two properties: an integer within a half of `x`,
      even when exactly a half away, is `round(x)`. */
  lemma RoundHalfEvenUnique(x: real, m: int)
    requires -0.5 <= x - m as real <= 0.5
    requires (x - m as real == 0.5 || x - m as real == -0.5) ==> m % 2 == 0
    ensures m == RoundHalfEven(x)
  {
    var n := RoundHalfEven(x);
    assert m + 1 == n ==> x - m as real == 0.5 && x - n as real == -0.5;
    assert n + 1 == m ==> x - n as real == 0.5 && x - m as real == -0.5;
  }

  /** `(curr - prev).seconds`: the time from `prevEnd` to `currStart`, wrapped into one day. */
  function GapSeconds(prevEnd: Time, currStart: Time): (g: int)
    ensures 0 <= g < 86400
    ensures currStart >= prevEnd ==> g == currStart - prevEnd
    ensures currStart < prevEnd ==> g == currStart - prevEnd + 86400
  {
    (currStart - prevEnd) % 86400
  }

  /** The penalty for the gap between two consecutive entries: `round(hours) * rate` when the
      gap in minutes exceeds the allowance, 0 otherwise. */
  function PairPenalty(prev: Slot, curr: Slot, maxAllowedGap: int, penaltyPerHour: int): int
  {
    var gapMinutes := GapSeconds(prev.end, curr.start) as real / 60.0;
    if gapMinutes > maxAllowedGap as real then RoundHalfEven(gapMinutes / 60.0) * penaltyPerHour else 0
  }

  /** The penalties of all consecutive pairs of `slots`: none for a day with at most one
      slot, and never negative under a non-negative rate. */
  function GapTotal(slots: seq<Slot>, maxAllowedGap: int, penaltyPerHour: int): (r: int)
    ensures |slots| <= 1 ==> r == 0
    ensures penaltyPerHour >= 0 ==> r >= 0
  {
    if |slots| <= 1 then 0
    else
      var prev, curr := slots[|slots| - 2], slots[|slots| - 1];
      assert penaltyPerHour >= 0 ==> PairPenalty(prev, curr, maxAllowedGap, penaltyPerHour) >= 0 by {
        if penaltyPerHour >= 0 {
          PairPenaltyNonNegative(prev, curr, maxAllowedGap, penaltyPerHour);
        }
      }
      GapTotal(slots[..|slots| - 1], maxAllowedGap, penaltyPerHour) + PairPenalty(prev, curr, maxAllowedGap, penaltyPerHour)
  }

  /** `_score_gaps_per_day`. */
  method ScoreGapsPerDay(daySlots: seq<Slot>, maxAllowedGap: int, penaltyPerHour: int) returns (score: int)
    ensures score == GapTotal(daySlots, maxAllowedGap, penaltyPerHour)
  {
    score := 0;
    var i := 1;
    while i < |daySlots|
      invariant 1 <= i && (daySlots == [] || i <= |daySlots|)
      invariant score == GapTotal(daySlots[..if daySlots == [] then 0 else i], maxAllowedGap, penaltyPerHour)
    {
      var prev, curr := daySlots[i - 1], daySlots[i];
      var gapMinutes := GapSeconds(prev.end, curr.start) as real / 60.0;
      if gapMinutes > maxAllowedGap as real {
        var gapHours := RoundHalfEven(gapMinutes / 60.0);
        score := score + gapHours * penaltyPerHour;
      }
      assert daySlots[..i + 1][..i] == daySlots[..i];
      i := i + 1;
    }
    assert daySlots[..|daySlots|] == daySlots;
  }

  /** With a non-negative rate no pair is rewarded. */
  lemma PairPenaltyNonNegative(prev: Slot, curr: Slot, maxAllowedGap: int, penaltyPerHour: int)
    requires penaltyPerHour >= 0
    ensures PairPenalty(prev, curr, maxAllowedGap, penaltyPerHour) >= 0
  {
    var gapMinutes := GapSeconds(prev.end, curr.start) as real / 60.0;
    var hours := RoundHalfEven(gapMinutes / 60.0);
    assert hours >= 0;
    assert hours * penaltyPerHour >= 0;
  }

  /** With an allowance of 20 minutes and a rate of 2, a 60-minute gap costs 2 and a 30-minute
      gap costs nothing; so does a break that touches the next meeting. */
  lemma GapExamples()
    ensures GapTotal([Slot("A", HM(8, 0), HM(9, 0), "M"), Slot("B", HM(10, 0), HM(11, 0), "M")], 20, 2) == 2
    ensures GapTotal([Slot("A", HM(8, 0), HM(9, 0), "M"), Slot("B", HM(9, 30), HM(10, 30), "M")], 20, 2) == 0
    ensures GapTotal([Slot("A", HM(8, 0), HM(9, 0), "M"), Slot("B", HM(9, 0), HM(10, 0), "M")], 20, 2) == 0
  {
    RoundHalfEvenUnique(1.0, 1);
  }

  // ---------------------------------------------------------------------------------------
  // _score_gaps

  /** The gap settings `_score_gaps` reads, in the order it reads them. */
  datatype GapSettings = GapSettings(breakStart: Time, breakEnd: Time, maxAllowedGap: int, penaltyPerHour: int)

  function ReadGapSettings(config: Config): (r: Result<GapSettings>)
    ensures r.Ok? <==> (
      && config.gapWeights.Some? && config.gapWeights.value.mandatoryBreakStart.Some?
      && config.gapWeights.value.mandatoryBreakEnd.Some? && config.gapWeights.value.maxAllowedGap.Some?
      && config.gapWeights.value.penaltyPerHour.Some?)
    ensures config.gapWeights.None? ==> r == Err(KeyError("gap_weights"))
  {
    if config.gapWeights.None? then Err(KeyError("gap_weights"))
    else
      var g := config.gapWeights.value;
      if g.mandatoryBreakStart.None? then Err(KeyError("mandatory_break_start"))
      else if g.mandatoryBreakEnd.None? then Err(KeyError("mandatory_break_end"))
      else if g.maxAllowedGap.None? then Err(KeyError("max_allowed_gap"))
      else if g.penaltyPerHour.None? then Err(KeyError("penalty_per_hour"))
      else Ok(GapSettings(g.mandatoryBreakStart.value, g.mandatoryBreakEnd.value, g.maxAllowedGap.value,
                          g.penaltyPerHour.value))
  }

  function Repeat<T>(x: T, n: nat): (r: seq<T>)
    ensures |r| == n && forall i :: 0 <= i < n ==> r[i] == x
  {
    seq(n, _ => x)
  }

  /** The entries a section puts on day `d`: one per listing of `d`, when it has both times. */
  function SectionSlots(s: Section, d: string): seq<Slot>
  {
    if s.sTime.Some? && s.eTime.Some? then
      Repeat(Slot(s.name, s.sTime.value, s.eTime.value, d), Occurrences(ExtractMeetingDays(s), d))
    else []
  }

  /** Day `d`'s list before the break and the sort: the entries of the sections, in order. */
  function SlotsOn(c: seq<Section>, d: string): seq<Slot>
  {
    if c == [] then [] else SlotsOn(c[..|c| - 1], d) + SectionSlots(c[|c| - 1], d)
  }

  function StartKey(slot: Slot): seq<real>
  {
    [slot.start as real]
  }

  predicate BreakDay(d: string)
  {
    d == "M" || d == "W" || d == "F"
  }

  /** Day `d`'s list as it is scored: with the break on Monday, Wednesday and Friday, sorted by
      start (stably). */
  function ScheduledDay(slots: seq<Slot>, d: string, g: GapSettings): seq<Slot>
  {
    SortBy(if BreakDay(d) then AddMandatoryBreak(slots, g.breakStart, g.breakEnd) else slots, StartKey)
  }

  /** A scored day is sorted by start and holds the day's entries, plus the break only on a
      break day and only when it has a meeting before and one after it. */
  lemma ScheduledDayShape(slots: seq<Slot>, d: string, g: GapSettings)
    ensures SortedBy(ScheduledDay(slots, d, g), StartKey)
    ensures !BreakDay(d) || !EndsBy(slots, g.breakStart) || !StartsFrom(slots, g.breakEnd) ==>
      multiset(ScheduledDay(slots, d, g)) == multiset(slots)
    ensures BreakDay(d) && EndsBy(slots, g.breakStart) && StartsFrom(slots, g.breakEnd) ==>
      multiset(ScheduledDay(slots, d, g)) == multiset(slots) + multiset{BreakSlot(g.breakStart, g.breakEnd)}
  {
  }

  /** The gap penalties of the days `ds`, summed. */
  function GapsOver(c: seq<Section>, ds: seq<string>, g: GapSettings): int
  {
    if ds == [] then 0
    else
      var d := ds[|ds| - 1];
      GapsOver(c, ds[..|ds| - 1], g) + GapTotal(ScheduledDay(SlotsOn(c, d), d, g), g.maxAllowedGap, g.penaltyPerHour)
  }

  lemma GapsOverStep(c: seq<Section>, ds: seq<string>, k: int, g: GapSettings)
    requires 0 <= k < |ds|
    ensures GapsOver(c, ds[..k + 1], g)
      == GapsOver(c, ds[..k], g) + GapTotal(ScheduledDay(SlotsOn(c, ds[k]), ds[k], g), g.maxAllowedGap, g.penaltyPerHour)
  {
    assert ds[..k + 1][..k] == ds[..k];
  }

  /** The gap score of a combination: the penalties of the seven days, never negative under
      a non-negative rate. */
  function GapScore(c: seq<Section>, g: GapSettings): (r: int)
    ensures g.penaltyPerHour >= 0 ==> r >= 0
  {
    GapsOverFacts(c, c, Days, g);
    GapsOver(c, Days, g)
  }

  lemma RepeatStep<T>(x: T, n: nat)
    ensures Repeat(x, n + 1) == Repeat(x, n) + [x]
  {
  }

  lemma OccurrencesStep(days: seq<string>, j: int, d: string)
    requires 0 <= j < |days|
    ensures Occurrences(days[..j + 1], d) == Occurrences(days[..j], d) + (if days[j] == d then 1 else 0)
  {
    assert days[..j + 1][..j] == days[..j];
  }

  /** The inner loop of the grouping: a timed section's entries go to the lists of the known
      days it lists. */
  method AddSectionSlots(daySlots0: map<string, seq<Slot>>, section: Section)
    returns (daySlots: map<string, seq<Slot>>)
    requires daySlots0.Keys == DaySet
    ensures daySlots.Keys == DaySet
    ensures forall d :: d in DaySet ==> daySlots[d] == daySlots0[d] + SectionSlots(section, d)
  {
    if section.sTime.Some? && section.eTime.Some? {
      daySlots := AppendSlots(daySlots0, section.name, section.sTime.value, section.eTime.value,
                              ExtractMeetingDays(section));
    } else {
      daySlots := daySlots0;
    }
  }

  /** The inner loop over one section's meeting days: each listed known day gets one more
      entry for the section. */
  method AppendSlots(daySlots0: map<string, seq<Slot>>, name: string, startTime: Time, endTime: Time,
                     meetingDays: seq<string>)
    returns (daySlots: map<string, seq<Slot>>)
    requires daySlots0.Keys == DaySet
    ensures daySlots.Keys == DaySet
    ensures forall d :: d in DaySet ==>
      daySlots[d] == daySlots0[d] + Repeat(Slot(name, startTime, endTime, d), Occurrences(meetingDays, d))
  {
    daySlots := daySlots0;
    for j := 0 to |meetingDays|
      invariant daySlots.Keys == DaySet
      invariant forall d :: d in DaySet ==>
        daySlots[d] == daySlots0[d] + Repeat(Slot(name, startTime, endTime, d), Occurrences(meetingDays[..j], d))
    {
      var day := meetingDays[j];
      forall d | d in DaySet
        ensures Occurrences(meetingDays[..j + 1], d) == Occurrences(meetingDays[..j], d) + (if day == d then 1 else 0)
      {
        OccurrencesStep(meetingDays, j, d);
      }
      if day in daySlots {
        RepeatStep(Slot(name, startTime, endTime, day), Occurrences(meetingDays[..j], day));
        daySlots := daySlots[day := daySlots[day] + [Slot(name, startTime, endTime, day)]];
      }
    }
    assert meetingDays[..|meetingDays|] == meetingDays;
  }

  /** The day lists of `_score_gaps`, built section by section. */
  method BuildDaySlots(combination: seq<Section>) returns (daySlots: map<string, seq<Slot>>)
    ensures daySlots.Keys == DaySet
    ensures forall d :: d in DaySet ==> daySlots[d] == SlotsOn(combination, d)
  {
    daySlots := map d | d in DaySet :: [];
    for i := 0 to |combination|
      invariant daySlots.Keys == DaySet
      invariant forall d :: d in DaySet ==> daySlots[d] == SlotsOn(combination[..i], d)
    {
      assert combination[..i + 1][..i] == combination[..i];
      daySlots := AddSectionSlots(daySlots, combination[i]);
    }
    assert combination[..|combination|] == combination;
  }

  /** One day of `_score_gaps`: the break on a break day, the sort, the per-day score. */
  method ScoreDay(slots0: seq<Slot>, day: string, g: GapSettings) returns (dayScore: int)
    ensures dayScore == GapTotal(ScheduledDay(slots0, day, g), g.maxAllowedGap, g.penaltyPerHour)
  {
    var slots := slots0;
    if BreakDay(day) {
      slots := AddMandatoryBreak(slots, g.breakStart, g.breakEnd);
    }
    slots := SortBy(slots, StartKey);
    dayScore := ScoreGapsPerDay(slots, g.maxAllowedGap, g.penaltyPerHour);
  }

  /** `_score_gaps`: the settings are read first; each known day's list gets the break on
      Monday, Wednesday and Friday, is sorted by start and scored. */
  method ScoreGaps(config: Config, combination: seq<Section>) returns (r: Result<int>)
    ensures ReadGapSettings(config).Err? ==> r == Err(ReadGapSettings(config).msg)
    ensures ReadGapSettings(config).Ok? ==> r == Ok(GapScore(combination, ReadGapSettings(config).value))
  {
    var settings := ReadGapSettings(config);
    if settings.Err? {
      return Err(settings.msg);
    }
    var g := settings.value;
    var daySlots := BuildDaySlots(combination);
    var score := 0;
    for k := 0 to |Days|
      invariant score == GapsOver(combination, Days[..k], g)
    {
      var day := Days[k];
      assert day in DaySet;
      var dayScore := ScoreDay(daySlots[day], day, g);
      GapsOverStep(combination, Days, k, g);
      score := score + dayScore;
    }
    assert Days[..|Days|] == Days;
    r := Ok(score);
  }

  lemma {:induction false} GapsOverFacts(c: seq<Section>, c': seq<Section>, ds: seq<string>, g: GapSettings)
    requires forall d :: d in ds ==> SlotsOn(c, d) == SlotsOn(c', d)
    ensures GapsOver(c, ds, g) == GapsOver(c', ds, g)
    ensures g.penaltyPerHour >= 0 ==> GapsOver(c, ds, g) >= 0
  {
    if ds != [] {
      var d := ds[|ds| - 1];
      GapsOverFacts(c, c', ds[..|ds| - 1], g);
    }
  }

  /** A section without both times takes no part in the gap score. */
  lemma UntimedSectionIgnored(c: seq<Section>, s: Section, g: GapSettings)
    requires s.sTime.None? || s.eTime.None?
    ensures GapScore(c + [s], g) == GapScore(c, g)
  {
    forall d | d in Days ensures SlotsOn(c + [s], d) == SlotsOn(c, d) {
      assert (c + [s])[..|c|] == c;
    }
    GapsOverFacts(c + [s], c, Days, g);
  }

  // ---------------------------------------------------------------------------------------
  // _average_time

  /** The sum of the minutes of the day of `times` (seconds ignored). */
  function MinuteSum(times: seq<Time>): int
  {
    if times == [] then 0 else MinuteSum(times[..|times| - 1]) + MinuteOfDay(times[|times| - 1])
  }

  /** When every time's minute lies in `[lo, hi]`, so does their sum scaled down by the count. */
  lemma {:induction false} MinuteSumBounds(times: seq<Time>, lo: int, hi: int)
    requires forall i :: 0 <= i < |times| ==> lo <= MinuteOfDay(times[i]) <= hi
    ensures lo * |times| <= MinuteSum(times) <= hi * |times|
  {
    if times != [] {
      var n := |times| - 1;
      var init := times[..n];
      assert forall i :: 0 <= i < |init| ==> init[i] == times[i];
      MinuteSumBounds(init, lo, hi);
      assert MinuteSum(times) == MinuteSum(init) + MinuteOfDay(times[n]);
      MulSucc(lo, n);
      MulSucc(hi, n);
    }
  }

  lemma MulSucc(a: int, n: int)
    ensures a * (n + 1) == a * n + a
  {
  }

  /** `_average_time`: the floor of the mean minute of the day, as a time with no seconds. */
  function AverageTime(times: seq<Time>): (r: Time)
    requires |times| > 0
    ensures r % 60 == 0
    ensures MinuteOfDay(r) * |times| <= MinuteSum(times) < (MinuteOfDay(r) + 1) * |times|
  {
    var avgMinutes := MinuteSum(times) / |times|;
    AverageMinuteBounds(times);
    MinuteTime(avgMinutes);
    HM(avgMinutes / 60, avgMinutes % 60)
  }

  /** The floor of the mean minute is a minute of the day, and brackets the sum. */
  lemma AverageMinuteBounds(times: seq<Time>)
    requires |times| > 0
    ensures var a := MinuteSum(times) / |times|;
      0 <= a < 1440 && a * |times| <= MinuteSum(times) < (a + 1) * |times|
  {
    MinuteSumBounds(times, 0, 1439);
    FloorDivBounds(MinuteSum(times), |times|, 1439);
    FloorDiv(MinuteSum(times), |times|);
  }

  /** `time(m // 60, m % 60)` is the start of minute `m`. */
  lemma MinuteTime(m: int)
    requires 0 <= m < 1440
    ensures 0 <= m / 60 < 24 && 0 <= m % 60 < 60
    ensures HM(m / 60, m % 60) == m * 60 && HM(m / 60, m % 60) % 60 == 0
    ensures MinuteOfDay(HM(m / 60, m % 60)) == m
  {
  }

  /** Floor division by a positive count brackets the dividend. */
  lemma FloorDiv(s: int, n: int)
    requires n > 0
    ensures (s / n) * n <= s < (s / n + 1) * n
  {
  }

  /** The floor of a sum of `n` values in `[0, hi]`, divided by `n`, lies in `[0, hi]`. */
  lemma FloorDivBounds(s: int, n: int, hi: int)
    requires n > 0 && 0 <= s <= hi * n
    ensures 0 <= s / n <= hi
  {
    var q := s / n;
    FloorDiv(s, n);
    assert q * n < (hi + 1) * n by {
      assert (hi + 1) * n == hi * n + n;
    }
    MulCancel(q, hi + 1, n);
    assert (-1) * n < q * n by {
      assert (q + 1) * n == q * n + n;
    }
    MulCancel(-1, q, n);
  }

  /** The average lies between the earliest and the latest input (in minutes), so a list of
      equal minutes averages to that minute. */
  lemma AverageTimeBetween(times: seq<Time>, lo: int, hi: int)
    requires |times| > 0
    requires forall i :: 0 <= i < |times| ==> lo <= MinuteOfDay(times[i]) <= hi
    ensures lo <= MinuteOfDay(AverageTime(times)) <= hi
  {
    MinuteSumBounds(times, lo, hi);
    var m := MinuteOfDay(AverageTime(times));
    var n := |times|;
    var total := MinuteSum(times);
    assert lo * n <= total < (m + 1) * n;
    MulCancel(lo, m + 1, n);
    assert m * n <= total <= hi * n;
    assert hi * n < (hi + 1) * n by {
      assert (hi + 1) * n == hi * n + n;
    }
    MulCancel(m, hi + 1, n);
  }

  lemma MulCancel(a: int, b: int, n: int)
    requires n > 0 && a * n < b * n
    ensures a < b
  {
    assert (b - a) * n == b * n - a * n;
  }

  // ---------------------------------------------------------------------------------------
  // _score_consistency

  /** The start times (or, with `ends`, the end times) a section adds to day `d`: one per
      listing of `d`, when it has both times. */
  function SectionTimes(s: Section, d: string, ends: bool): seq<Time>
  {
    if s.sTime.Some? && s.eTime.Some? then
      Repeat(if ends then s.eTime.value else s.sTime.value, Occurrences(ExtractMeetingDays(s), d))
    else []
  }

  /** Day `d`'s list of start (or end) times, in section order. */
  function TimesOn(c: seq<Section>, d: string, ends: bool): seq<Time>
  {
    if c == [] then [] else TimesOn(c[..|c| - 1], d, ends) + SectionTimes(c[|c| - 1], d, ends)
  }

  /** `start_times_by_day` (or `end_times_by_day`) once the grouping loop is done. */
  function TimesByDay(c: seq<Section>, ends: bool): map<string, seq<Time>>
  {
    map d | d in DaySet :: TimesOn(c, d, ends)
  }

  /** The days, in week order, whose list is kept (is not empty). */
  function KeptDays(byDay: map<string, seq<Time>>, ds: seq<string>): (r: seq<string>)
    ensures forall i :: 0 <= i < |r| ==> r[i] in byDay && byDay[r[i]] != []
  {
    if ds == [] then []
    else
      var d := ds[|ds| - 1];
      KeptDays(byDay, ds[..|ds| - 1]) + (if d in byDay && byDay[d] != [] then [d] else [])
  }

  /** `min(times)`. */
  function MinTime(times: seq<Time>): (r: Time)
    requires times != []
    ensures r in times && forall i :: 0 <= i < |times| ==> r <= times[i]
  {
    if |times| == 1 then times[0]
    else
      var m := MinTime(times[1..]);
      assert forall i :: 1 <= i < |times| ==> times[i] == times[1..][i - 1];
      if times[0] <= m then times[0] else m
  }

  /** `max(times)`. */
  function MaxTime(times: seq<Time>): (r: Time)
    requires times != []
    ensures r in times && forall i :: 0 <= i < |times| ==> times[i] <= r
  {
    if |times| == 1 then times[0]
    else
      var m := MaxTime(times[1..]);
      assert forall i :: 1 <= i < |times| ==> times[i] == times[1..][i - 1];
      if times[0] >= m then times[0] else m
  }

  /** The earliest time of each kept day (`first_section_start_time`). */
  function Earliest(byDay: map<string, seq<Time>>, days: seq<string>): (r: seq<Time>)
    requires forall i :: 0 <= i < |days| ==> days[i] in byDay && byDay[days[i]] != []
    ensures |r| == |days|
  {
    seq(|days|, i requires 0 <= i < |days| => MinTime(byDay[days[i]]))
  }

  /** The latest time of each kept day (`last_section_end_time`). */
  function Latest(byDay: map<string, seq<Time>>, days: seq<string>): (r: seq<Time>)
    requires forall i :: 0 <= i < |days| ==> days[i] in byDay && byDay[days[i]] != []
    ensures |r| == |days|
  {
    seq(|days|, i requires 0 <= i < |days| => MaxTime(byDay[days[i]]))
  }

  function Abs(x: real): real
  {
    if x < 0.0 then -x else x
  }

  /** The summed absolute deviation, in hours (minutes of the day, seconds ignored), of
      `times` from `avg`. */
  function Deviation(times: seq<Time>, avg: Time): real
  {
    if times == [] then 0.0
    else Deviation(times[..|times| - 1], avg) + Abs((MinuteOfDay(times[|times| - 1]) - MinuteOfDay(avg)) as real / 60.0)
  }

  /** The two consistency scores. */
  datatype Consistency = Consistency(startScore: real, endScore: real)

  /** The scores computed from the two groupings: zero when either keeps no day, otherwise the
      weighted deviations of the daily earliest starts and latest ends from their averages. */
  function ConsistencyOf(starts: map<string, seq<Time>>, ends: map<string, seq<Time>>, weight: real): Consistency
  {
    var startDays := KeptDays(starts, Days);
    var endDays := KeptDays(ends, Days);
    if startDays == [] || endDays == [] then Consistency(0.0, 0.0)
    else
      var firsts := Earliest(starts, startDays);
      var lasts := Latest(ends, endDays);
      Consistency(Deviation(firsts, AverageTime(firsts)) * weight, Deviation(lasts, AverageTime(lasts)) * weight)
  }

  /** The consistency scores of a combination under `weight`; neither is negative under a
      non-negative weight. */
  function ConsistencyScores(c: seq<Section>, weight: real): (r: Consistency)
    ensures weight >= 0.0 ==> r.startScore >= 0.0 && r.endScore >= 0.0
  {
    var starts, ends := TimesByDay(c, false), TimesByDay(c, true);
    assert weight >= 0.0 ==>
      ConsistencyOf(starts, ends, weight).startScore >= 0.0 && ConsistencyOf(starts, ends, weight).endScore >= 0.0 by {
      if weight >= 0.0 {
        ConsistencyNonNegative(starts, ends, weight);
      }
    }
    ConsistencyOf(starts, ends, weight)
  }

  /** `byDay` is `byDay0` with `t` appended once per listing, among the first `j` of `days`,
      of each known day. */
  ghost predicate Grouped(byDay: map<string, seq<Time>>, byDay0: map<string, seq<Time>>, t: Time,
                          days: seq<string>, j: int)
    requires 0 <= j <= |days|
  {
    && byDay.Keys == DaySet && byDay0.Keys == DaySet
    && forall d :: d in DaySet ==> byDay[d] == byDay0[d] + Repeat(t, Occurrences(days[..j], d))
  }

  lemma GroupedStep(byDay: map<string, seq<Time>>, byDay0: map<string, seq<Time>>, t: Time,
                    days: seq<string>, j: int)
    requires 0 <= j < |days| && Grouped(byDay, byDay0, t, days, j)
    ensures Grouped(if days[j] in byDay then byDay[days[j] := byDay[days[j]] + [t]] else byDay, byDay0, t, days, j + 1)
  {
    forall d | d in DaySet
      ensures Occurrences(days[..j + 1], d) == Occurrences(days[..j], d) + (if days[j] == d then 1 else 0)
    {
      OccurrencesStep(days, j, d);
    }
    RepeatStep(t, Occurrences(days[..j], days[j]));
  }

  /** The inner loop of the grouping: a timed section's start and end go to the lists of the
      known days it lists. */
  method AddSectionTimes(starts0: map<string, seq<Time>>, ends0: map<string, seq<Time>>, section: Section)
    returns (starts: map<string, seq<Time>>, ends: map<string, seq<Time>>)
    requires starts0.Keys == DaySet && ends0.Keys == DaySet
    ensures starts.Keys == DaySet && ends.Keys == DaySet
    ensures forall d :: d in DaySet ==> starts[d] == starts0[d] + SectionTimes(section, d, false)
    ensures forall d :: d in DaySet ==> ends[d] == ends0[d] + SectionTimes(section, d, true)
  {
    if section.sTime.Some? && section.eTime.Some? {
      starts, ends := AppendTimes(starts0, ends0, section.sTime.value, section.eTime.value,
                                  ExtractMeetingDays(section));
    } else {
      starts, ends := starts0, ends0;
    }
  }

  /** The loop over one section's meeting days: each listed known day gets the start and the
      end once more. */
  method AppendTimes(starts0: map<string, seq<Time>>, ends0: map<string, seq<Time>>, startTime: Time,
                     endTime: Time, meetingDays: seq<string>)
    returns (starts: map<string, seq<Time>>, ends: map<string, seq<Time>>)
    requires starts0.Keys == DaySet && ends0.Keys == DaySet
    ensures starts.Keys == DaySet && ends.Keys == DaySet
    ensures forall d :: d in DaySet ==> starts[d] == starts0[d] + Repeat(startTime, Occurrences(meetingDays, d))
    ensures forall d :: d in DaySet ==> ends[d] == ends0[d] + Repeat(endTime, Occurrences(meetingDays, d))
  {
    starts, ends := starts0, ends0;
    for j := 0 to |meetingDays|
      invariant Grouped(starts, starts0, startTime, meetingDays, j)
      invariant Grouped(ends, ends0, endTime, meetingDays, j)
    {
      var day := meetingDays[j];
      GroupedStep(starts, starts0, startTime, meetingDays, j);
      GroupedStep(ends, ends0, endTime, meetingDays, j);
      if day in starts {
        starts := starts[day := starts[day] + [startTime]];
        ends := ends[day := ends[day] + [endTime]];
      }
    }
    assert meetingDays[..|meetingDays|] == meetingDays;
  }

  /** The grouping loop of `_score_consistency`. */
  method GroupTimesByDay(combination: seq<Section>)
    returns (starts: map<string, seq<Time>>, ends: map<string, seq<Time>>)
    ensures starts == TimesByDay(combination, false) && ends == TimesByDay(combination, true)
  {
    starts := map d | d in DaySet :: [];
    ends := map d | d in DaySet :: [];
    for i := 0 to |combination|
      invariant starts.Keys == DaySet && ends.Keys == DaySet
      invariant forall d :: d in DaySet ==> starts[d] == TimesOn(combination[..i], d, false)
      invariant forall d :: d in DaySet ==> ends[d] == TimesOn(combination[..i], d, true)
    {
      forall d | d in DaySet
        ensures TimesOn(combination[..i + 1], d, false) == TimesOn(combination[..i], d, false) + SectionTimes(combination[i], d, false)
        ensures TimesOn(combination[..i + 1], d, true) == TimesOn(combination[..i], d, true) + SectionTimes(combination[i], d, true)
      {
        TimesOnStep(combination, i, d, false);
        TimesOnStep(combination, i, d, true);
      }
      starts, ends := AddSectionTimes(starts, ends, combination[i]);
    }
    assert combination[..|combination|] == combination;
  }

  lemma TimesOnStep(c: seq<Section>, i: int, d: string, ends: bool)
    requires 0 <= i < |c|
    ensures TimesOn(c[..i + 1], d, ends) == TimesOn(c[..i], d, ends) + SectionTimes(c[i], d, ends)
  {
    assert c[..i + 1][..i] == c[..i];
  }

  /** `_score_consistency`; the weight is read before anything else. */
  method ScoreConsistency(config: Config, combination: seq<Section>) returns (r: Result<Consistency>)
    ensures config.consistencyPenaltyWeight.None? ==> r == Err(KeyError("consistency_penalty_weight"))
    ensures config.consistencyPenaltyWeight.Some? ==>
      r == Ok(ConsistencyScores(combination, config.consistencyPenaltyWeight.value))
  {
    if config.consistencyPenaltyWeight.None? {
      return Err(KeyError("consistency_penalty_weight"));
    }
    var weight := config.consistencyPenaltyWeight.value;
    var starts, ends := GroupTimesByDay(combination);
    r := Ok(ConsistencyOf(starts, ends, weight));
  }

  lemma {:induction false} DeviationNonNegative(times: seq<Time>, avg: Time)
    ensures Deviation(times, avg) >= 0.0
  {
    if times != [] {
      DeviationNonNegative(times[..|times| - 1], avg);
    }
  }

  /** Times on the minute of `avg` do not deviate from it. */
  lemma {:induction false} DeviationOfSteady(times: seq<Time>, avg: Time)
    requires forall i :: 0 <= i < |times| ==> MinuteOfDay(times[i]) == MinuteOfDay(avg)
    ensures Deviation(times, avg) == 0.0
  {
    if times != [] {
      DeviationOfSteady(times[..|times| - 1], avg);
    }
  }

  /** With a non-negative weight both scores are non-negative. */
  lemma ConsistencyNonNegative(starts: map<string, seq<Time>>, ends: map<string, seq<Time>>, weight: real)
    requires weight >= 0.0
    ensures ConsistencyOf(starts, ends, weight).startScore >= 0.0
    ensures ConsistencyOf(starts, ends, weight).endScore >= 0.0
  {
    var startDays, endDays := KeptDays(starts, Days), KeptDays(ends, Days);
    if startDays != [] && endDays != [] {
      var firsts := Earliest(starts, startDays);
      var lasts := Latest(ends, endDays);
      DeviationNonNegative(firsts, AverageTime(firsts));
      DeviationNonNegative(lasts, AverageTime(lasts));
    }
  }

  lemma {:induction false} UntimedTimesOn(c: seq<Section>, d: string, ends: bool)
    requires forall i :: 0 <= i < |c| ==> c[i].sTime.None? || c[i].eTime.None?
    ensures TimesOn(c, d, ends) == []
  {
    if c != [] {
      UntimedTimesOn(c[..|c| - 1], d, ends);
    }
  }

  lemma {:induction false} KeptDaysNone(byDay: map<string, seq<Time>>, ds: seq<string>)
    requires forall d :: d in byDay ==> byDay[d] == []
    ensures KeptDays(byDay, ds) == []
  {
    if ds != [] {
      KeptDaysNone(byDay, ds[..|ds| - 1]);
    }
  }

  /** Without a section that has both times there is nothing to compare: both scores are 0. */
  lemma NoTimedSectionsNoPenalty(c: seq<Section>, weight: real)
    requires forall i :: 0 <= i < |c| ==> c[i].sTime.None? || c[i].eTime.None?
    ensures ConsistencyScores(c, weight) == Consistency(0.0, 0.0)
  {
    forall d, ends: bool | d in DaySet ensures TimesOn(c, d, ends) == [] {
      UntimedTimesOn(c, d, ends);
    }
    KeptDaysNone(TimesByDay(c, false), Days);
  }

  /** When every kept day has the same earliest start (to the minute), the start score is 0.
      A single kept day is such a case. */
  lemma SteadyStartsNoPenalty(starts: map<string, seq<Time>>, ends: map<string, seq<Time>>, weight: real)
    requires KeptDays(starts, Days) != []
    requires var firsts := Earliest(starts, KeptDays(starts, Days));
      forall i :: 0 <= i < |firsts| ==> MinuteOfDay(firsts[i]) == MinuteOfDay(firsts[0])
    ensures ConsistencyOf(starts, ends, weight).startScore == 0.0
  {
    var firsts := Earliest(starts, KeptDays(starts, Days));
    var m := MinuteOfDay(firsts[0]);
    AverageTimeBetween(firsts, m, m);
    DeviationOfSteady(firsts, AverageTime(firsts));
  }

  /** When every kept day has the same latest end (to the minute), the end score is 0. */
  lemma SteadyEndsNoPenalty(starts: map<string, seq<Time>>, ends: map<string, seq<Time>>, weight: real)
    requires KeptDays(ends, Days) != []
    requires var lasts := Latest(ends, KeptDays(ends, Days));
      forall i :: 0 <= i < |lasts| ==> MinuteOfDay(lasts[i]) == MinuteOfDay(lasts[0])
    ensures ConsistencyOf(starts, ends, weight).endScore == 0.0
  {
    var lasts := Latest(ends, KeptDays(ends, Days));
    var m := MinuteOfDay(lasts[0]);
    AverageTimeBetween(lasts, m, m);
    DeviationOfSteady(lasts, AverageTime(lasts));
  }

  lemma {:induction false} TimesOnLength(c: seq<Section>, d: string)
    ensures |TimesOn(c, d, false)| == |TimesOn(c, d, true)|
  {
    if c != [] {
      TimesOnLength(c[..|c| - 1], d);
    }
  }

  /** The start grouping and the end grouping keep the same days. */
  lemma {:induction false} KeptDaysAgree(c: seq<Section>, ds: seq<string>)
    ensures KeptDays(TimesByDay(c, false), ds) == KeptDays(TimesByDay(c, true), ds)
  {
    if ds != [] {
      KeptDaysAgree(c, ds[..|ds| - 1]);
      TimesOnLength(c, ds[|ds| - 1]);
    }
  }

  // ---------------------------------------------------------------------------------------
  // _combined_score

  /** What each sub-score gives, error or value, as its method computes it. */
  function ModalityResult(config: Config, c: seq<Section>): Result<int>
  {
    if config.modalityPreferences.None? then Err(KeyError("modality_preferences"))
    else Ok(MismatchCount(c, config.modalityPreferences.value))
  }

  function DaysResult(config: Config, c: seq<Section>): Result<int>
  {
    if config.dayWeights.None? then Err(KeyError("day_weights"))
    else if config.preferredNumDays.None? then Err(KeyError("preferred_num_days"))
    else DaysPenalty(config.dayWeights.value, config.preferredNumDays.value, |CampusDays(c)|)
  }

  function GapsResult(config: Config, c: seq<Section>): Result<int>
  {
    var g := ReadGapSettings(config);
    if g.Err? then Err(g.msg) else Ok(GapScore(c, g.value))
  }

  function MaxSectionsResult(config: Config, c: seq<Section>): Result<int>
  {
    if config.preferredMaxSectionsPerDay.None? then Err(CompareNoneMsg)
    else Ok(SectionsExcess(c, config.preferredMaxSectionsPerDay.value))
  }

  function ConsistencyResult(config: Config, c: seq<Section>): Result<Consistency>
  {
    if config.consistencyPenaltyWeight.None? then Err(KeyError("consistency_penalty_weight"))
    else Ok(ConsistencyScores(c, config.consistencyPenaltyWeight.value))
  }

  /** The scores of a combination: the weighted sum and its parts. */
  datatype Scores = Scores(combined: real, days: int, gap: int, modality: int, maxSections: int,
                           startConsistency: real, endConsistency: real)

  /** `weights.get(key, 1)`. */
  function WeightOr1(w: Option<real>): real
  {
    if w.Some? then w.value else 1.0
  }

  /** The weighted sum: `days`, `gaps` and `modality` are required, in that order; the other
      weights default to 1. */
  function WeightedSum(weights: Option<Weights>, days: int, gap: int, modality: int, maxSections: int,
                       consistency: Consistency): Result<real>
  {
    if weights.None? then Err(KeyError("weights"))
    else
      var w := weights.value;
      if w.days.None? then Err(KeyError("days"))
      else if w.gaps.None? then Err(KeyError("gaps"))
      else if w.modality.None? then Err(KeyError("modality"))
      else Ok(w.days.value * days as real + w.gaps.value * gap as real + w.modality.value * modality as real
              + WeightOr1(w.sectionsPerDay) * maxSections as real
              + WeightOr1(w.consistencyStartTime) * consistency.startScore
              + WeightOr1(w.consistencyEndTime) * consistency.endScore)
  }

  /** The sub-scores, failing with the first failure in the order the source computes them
      (modality, days, gaps, sections per day, consistency), then their weighted sum. */
  function Combine(weights: Option<Weights>, modality: Result<int>, days: Result<int>, gap: Result<int>,
                   maxSections: Result<int>, consistency: Result<Consistency>): Result<Scores>
  {
    if modality.Err? then Err(modality.msg)
    else if days.Err? then Err(days.msg)
    else if gap.Err? then Err(gap.msg)
    else if maxSections.Err? then Err(maxSections.msg)
    else if consistency.Err? then Err(consistency.msg)
    else
      var combined := WeightedSum(weights, days.value, gap.value, modality.value, maxSections.value,
                                  consistency.value);
      if combined.Err? then Err(combined.msg)
      else Ok(Scores(combined.value, days.value, gap.value, modality.value, maxSections.value,
                     consistency.value.startScore, consistency.value.endScore))
  }

  /** `_combined_score` of a combination: a score exists only when all five sub-scores
      succeed, and its parts are then those sub-scores; the modality score runs first, so its
      failure is the combined failure. */
  function CombinedScoreOf(config: Config, c: seq<Section>): (r: Result<Scores>)
    ensures r.Ok? ==>
      && ModalityResult(config, c).Ok? && DaysResult(config, c).Ok? && GapsResult(config, c).Ok?
      && MaxSectionsResult(config, c).Ok? && ConsistencyResult(config, c).Ok?
    ensures r.Ok? ==>
      && r.value.modality == ModalityResult(config, c).value && r.value.days == DaysResult(config, c).value
      && r.value.gap == GapsResult(config, c).value && r.value.maxSections == MaxSectionsResult(config, c).value
      && r.value.startConsistency == ConsistencyResult(config, c).value.startScore
      && r.value.endConsistency == ConsistencyResult(config, c).value.endScore
    ensures ModalityResult(config, c).Err? ==> r == Err(ModalityResult(config, c).msg)
  {
    Combine(config.weights, ModalityResult(config, c), DaysResult(config, c), GapsResult(config, c),
            MaxSectionsResult(config, c), ConsistencyResult(config, c))
  }

  // The five sub-scores are wrapped by the timing decorator, which records a failure under the
  // function's own name before passing it on; the message gets a trailing space, since the
  // combination is passed positionally and no section is named.

  const ModalityStage := "_score_modality"
  const DaysStage := "_score_days_on_campus"
  const GapsStage := "_score_gaps"
  const MaxSectionsStage := "_score_max_sections_per_day"
  const ConsistencyStage := "_score_consistency"

  /** The stage and message the decorator records for the first failing sub-score. */
  function FirstFailure(modality: Result<int>, days: Result<int>, gap: Result<int>, maxSections: Result<int>,
                        consistency: Result<Consistency>): Option<(string, string)>
  {
    if modality.Err? then Some((ModalityStage, modality.msg + " "))
    else if days.Err? then Some((DaysStage, days.msg + " "))
    else if gap.Err? then Some((GapsStage, gap.msg + " "))
    else if maxSections.Err? then Some((MaxSectionsStage, maxSections.msg + " "))
    else if consistency.Err? then Some((ConsistencyStage, consistency.msg + " "))
    else None
  }

  /** The stage and message the decorator records when scoring `c` fails in a sub-score. */
  function SubScoreFailure(config: Config, c: seq<Section>): Option<(string, string)>
  {
    FirstFailure(ModalityResult(config, c), DaysResult(config, c), GapsResult(config, c),
                 MaxSectionsResult(config, c), ConsistencyResult(config, c))
  }

  /** The ledger after an optional decorator record. */
  function LogFailure(ledger: Ledger, failure: Option<(string, string)>): Ledger
  {
    if failure.Some? then Record(ledger, failure.value.0, failure.value.1) else ledger
  }

  /** The decorator records a failure under one of the scoring stages. */
  lemma FailureStage(modality: Result<int>, days: Result<int>, gap: Result<int>, maxSections: Result<int>,
                     consistency: Result<Consistency>)
    ensures var f := FirstFailure(modality, days, gap, maxSections, consistency);
      f.Some? ==> f.value.0 in ScoringStages
  {
  }

  /** A sub-score failure makes the whole score fail with the recorded message (less its
      trailing space); without one, only a missing weight can make it fail. */
  lemma FirstFailureAgrees(weights: Option<Weights>, modality: Result<int>, days: Result<int>, gap: Result<int>,
                           maxSections: Result<int>, consistency: Result<Consistency>)
    ensures var f := FirstFailure(modality, days, gap, maxSections, consistency);
      var r := Combine(weights, modality, days, gap, maxSections, consistency);
      && (f.Some? ==> r.Err? && f.value.1 == r.msg + " " && f.value.0 in ScoringStages)
      && (f.None? && r.Err? ==> r.msg in {KeyError("weights"), KeyError("days"), KeyError("gaps"), KeyError("modality")})
  {
  }

  /** `_combined_score`, calling the (decorated) sub-score computations. */
  method CombinedScore(config: Config, combination: seq<Section>, ledger0: Ledger) returns (r: Result<Scores>, ledger: Ledger)
    ensures r == CombinedScoreOf(config, combination)
    ensures ledger == LogFailure(ledger0, SubScoreFailure(config, combination))
  {
    ledger := ledger0;
    var modality := ScoreModality(config, combination);
    assert modality == ModalityResult(config, combination);
    if modality.Err? {
      assert SubScoreFailure(config, combination) == Some((ModalityStage, modality.msg + " "));
      ledger := LogFailure(ledger0, Some((ModalityStage, modality.msg + " ")));
      return Err(modality.msg), ledger;
    }
    var days := ScoreDaysOnCampus(config, combination);
    assert days == DaysResult(config, combination);
    if days.Err? {
      assert SubScoreFailure(config, combination) == Some((DaysStage, days.msg + " "));
      ledger := LogFailure(ledger0, Some((DaysStage, days.msg + " ")));
      return Err(days.msg), ledger;
    }
    var gap := ScoreGaps(config, combination);
    assert gap == GapsResult(config, combination);
    if gap.Err? {
      assert SubScoreFailure(config, combination) == Some((GapsStage, gap.msg + " "));
      ledger := LogFailure(ledger0, Some((GapsStage, gap.msg + " ")));
      return Err(gap.msg), ledger;
    }
    r, ledger := CombineRemaining(config, combination, modality.value, days.value, gap.value, ledger0);
  }

  /** The rest of `_combined_score` once modality, days and gaps are scored: sections per day,
      consistency, then the weighted sum. */
  method CombineRemaining(config: Config, combination: seq<Section>, modality: int, days: int, gap: int,
                          ledger0: Ledger) returns (r: Result<Scores>, ledger: Ledger)
    requires ModalityResult(config, combination) == Ok(modality)
    requires DaysResult(config, combination) == Ok(days)
    requires GapsResult(config, combination) == Ok(gap)
    ensures r == CombinedScoreOf(config, combination)
    ensures ledger == LogFailure(ledger0, SubScoreFailure(config, combination))
  {
    ledger := ledger0;
    var maxSections := ScoreMaxSectionsPerDay(config, combination);
    assert maxSections == MaxSectionsResult(config, combination);
    if maxSections.Err? {
      assert SubScoreFailure(config, combination) == Some((MaxSectionsStage, maxSections.msg + " "));
      ledger := LogFailure(ledger0, Some((MaxSectionsStage, maxSections.msg + " ")));
      return Err(maxSections.msg), ledger;
    }
    var consistency := ScoreConsistency(config, combination);
    assert consistency == ConsistencyResult(config, combination);
    if consistency.Err? {
      assert SubScoreFailure(config, combination) == Some((ConsistencyStage, consistency.msg + " "));
      ledger := LogFailure(ledger0, Some((ConsistencyStage, consistency.msg + " ")));
      return Err(consistency.msg), ledger;
    }
    var combined := WeightedSum(config.weights, days, gap, modality, maxSections.value, consistency.value);
    assert SubScoreFailure(config, combination) == None;
    if combined.Err? {
      return Err(combined.msg), ledger;
    }
    r := Ok(Scores(combined.value, days, gap, modality, maxSections.value,
                   consistency.value.startScore, consistency.value.endScore));
  }

  /** The configuration as shipped has no modality preferences, so scoring any combination
      fails with that missing key. */
  lemma ShippedConfigFails(c: seq<Section>)
    ensures CombinedScoreOf(Shipped, c) == Err(KeyError("modality_preferences"))
  {
  }

  /** The weights of sections per day and of the two consistency scores default to 1:
      leaving one out is the same as giving it as 1. */
  lemma OptionalWeightsDefaultToOne(w: Weights, days: int, gap: int, modality: int, maxSections: int,
                                    consistency: Consistency)
    ensures WeightedSum(Some(w), days, gap, modality, maxSections, consistency)
      == WeightedSum(Some(w.(sectionsPerDay := Some(WeightOr1(w.sectionsPerDay)),
                             consistencyStartTime := Some(WeightOr1(w.consistencyStartTime)),
                             consistencyEndTime := Some(WeightOr1(w.consistencyEndTime)))),
                     days, gap, modality, maxSections, consistency)
    ensures w.sectionsPerDay.None? && w.consistencyStartTime.None? && w.consistencyEndTime.None? &&
            w.days.Some? && w.gaps.Some? && w.modality.Some? ==>
      WeightedSum(Some(w), days, gap, modality, maxSections, consistency)
      == Ok(w.days.value * days as real + w.gaps.value * gap as real + w.modality.value * modality as real
            + maxSections as real + consistency.startScore + consistency.endScore)
  {
    var w' := w.(sectionsPerDay := Some(WeightOr1(w.sectionsPerDay)),
                 consistencyStartTime := Some(WeightOr1(w.consistencyStartTime)),
                 consistencyEndTime := Some(WeightOr1(w.consistencyEndTime)));
    assert WeightOr1(w'.sectionsPerDay) == WeightOr1(w.sectionsPerDay);
    assert WeightOr1(w'.consistencyStartTime) == WeightOr1(w.consistencyStartTime);
    assert WeightOr1(w'.consistencyEndTime) == WeightOr1(w.consistencyEndTime);
    assert w'.days == w.days && w'.gaps == w.gaps && w'.modality == w.modality;
    if w.days.Some? && w.gaps.Some? && w.modality.Some? {
      assert WeightedSum(Some(w), days, gap, modality, maxSections, consistency).Ok?;
      assert WeightedSum(Some(w'), days, gap, modality, maxSections, consistency).Ok?;
      var a := WeightedSum(Some(w), days, gap, modality, maxSections, consistency).value;
      var b := WeightedSum(Some(w'), days, gap, modality, maxSections, consistency).value;
      assert a == w.days.value * days as real + w.gaps.value * gap as real + w.modality.value * modality as real
              + WeightOr1(w.sectionsPerDay) * maxSections as real
              + WeightOr1(w.consistencyStartTime) * consistency.startScore
              + WeightOr1(w.consistencyEndTime) * consistency.endScore;
      assert b == w.days.value * days as real + w.gaps.value * gap as real + w.modality.value * modality as real
              + WeightOr1(w.sectionsPerDay) * maxSections as real
              + WeightOr1(w.consistencyStartTime) * consistency.startScore
              + WeightOr1(w.consistencyEndTime) * consistency.endScore;
    }
  }

  /** Every weight that is given (or defaults to 1) is non-negative. */
  predicate NonNegativeWeights(weights: Option<Weights>)
  {
    weights.Some? ==>
    var w := weights.value;
    && (w.days.Some? ==> w.days.value >= 0.0) && (w.gaps.Some? ==> w.gaps.value >= 0.0)
    && (w.modality.Some? ==> w.modality.value >= 0.0) && WeightOr1(w.sectionsPerDay) >= 0.0
    && WeightOr1(w.consistencyStartTime) >= 0.0 && WeightOr1(w.consistencyEndTime) >= 0.0
  }

  /** The settings under which every part of the combined score is non-negative. */
  predicate NonNegativeSettings(config: Config)
  {
    && NonNegativeWeights(config.weights)
    && (config.dayWeights.Some? ==> forall i :: 0 <= i < |config.dayWeights.value| ==> config.dayWeights.value[i].1 >= 0)
    && (config.gapWeights.Some? && config.gapWeights.value.penaltyPerHour.Some? ==>
         config.gapWeights.value.penaltyPerHour.value >= 0)
    && (config.consistencyPenaltyWeight.Some? ==> config.consistencyPenaltyWeight.value >= 0.0)
  }

  /** Under non-negative settings each sub-score that succeeds is non-negative. */
  lemma SubScoresNonNegative(config: Config, c: seq<Section>)
    requires NonNegativeSettings(config)
    ensures ModalityResult(config, c).Ok? ==> ModalityResult(config, c).value >= 0
    ensures DaysResult(config, c).Ok? ==> DaysResult(config, c).value >= 0
    ensures GapsResult(config, c).Ok? ==> GapsResult(config, c).value >= 0
    ensures MaxSectionsResult(config, c).Ok? ==> MaxSectionsResult(config, c).value >= 0
    ensures ConsistencyResult(config, c).Ok? ==> ConsistencyResult(config, c).value.startScore >= 0.0
    ensures ConsistencyResult(config, c).Ok? ==> ConsistencyResult(config, c).value.endScore >= 0.0
  {
    if config.consistencyPenaltyWeight.Some? {
      ConsistencyNonNegative(TimesByDay(c, false), TimesByDay(c, true), config.consistencyPenaltyWeight.value);
    }
  }

  /** Non-negative weights of non-negative parts give a non-negative sum. */
  lemma WeightedSumNonNegative(weights: Option<Weights>, days: int, gap: int, modality: int, maxSections: int,
                               consistency: Consistency)
    requires days >= 0 && gap >= 0 && modality >= 0 && maxSections >= 0
    requires consistency.startScore >= 0.0 && consistency.endScore >= 0.0
    requires NonNegativeWeights(weights)
    ensures var r := WeightedSum(weights, days, gap, modality, maxSections, consistency);
      r.Ok? ==> r.value >= 0.0
  {
    if WeightedSum(weights, days, gap, modality, maxSections, consistency).Ok? {
      var w := weights.value;
      NonNegativeProducts(w.days.value, days as real, w.gaps.value, gap as real, w.modality.value,
                          modality as real, WeightOr1(w.sectionsPerDay), maxSections as real,
                          WeightOr1(w.consistencyStartTime), consistency.startScore,
                          WeightOr1(w.consistencyEndTime), consistency.endScore);
    }
  }

  lemma NonNegativeProducts(a: real, x: real, b: real, y: real, c: real, z: real, d: real, u: real,
                            e: real, v: real, f: real, t: real)
    requires a >= 0.0 && x >= 0.0 && b >= 0.0 && y >= 0.0 && c >= 0.0 && z >= 0.0
    requires d >= 0.0 && u >= 0.0 && e >= 0.0 && v >= 0.0 && f >= 0.0 && t >= 0.0
    ensures a * x + b * y + c * z + d * u + e * v + f * t >= 0.0
  {
  }

  /** Non-negative settings give a non-negative combined score and non-negative parts. */
  lemma CombinedNonNegative(config: Config, c: seq<Section>)
    requires NonNegativeSettings(config)
    ensures var r := CombinedScoreOf(config, c);
      r.Ok? ==> r.value.combined >= 0.0 && r.value.days >= 0 && r.value.gap >= 0 && r.value.modality >= 0
                && r.value.maxSections >= 0 && r.value.startConsistency >= 0.0 && r.value.endConsistency >= 0.0
  {
    SubScoresNonNegative(config, c);
    CombineNonNegative(config.weights, ModalityResult(config, c), DaysResult(config, c), GapsResult(config, c),
                       MaxSectionsResult(config, c), ConsistencyResult(config, c));
  }

  /** Combining non-negative sub-scores with non-negative weights gives non-negative scores. */
  lemma CombineNonNegative(weights: Option<Weights>, modality: Result<int>, days: Result<int>, gap: Result<int>,
                           maxSections: Result<int>, consistency: Result<Consistency>)
    requires NonNegativeWeights(weights)
    requires modality.Ok? ==> modality.value >= 0
    requires days.Ok? ==> days.value >= 0
    requires gap.Ok? ==> gap.value >= 0
    requires maxSections.Ok? ==> maxSections.value >= 0
    requires consistency.Ok? ==> consistency.value.startScore >= 0.0 && consistency.value.endScore >= 0.0
    ensures var r := Combine(weights, modality, days, gap, maxSections, consistency);
      r.Ok? ==> r.value.combined >= 0.0 && r.value.days >= 0 && r.value.gap >= 0 && r.value.modality >= 0
                && r.value.maxSections >= 0 && r.value.startConsistency >= 0.0 && r.value.endConsistency >= 0.0
  {
    if modality.Ok? && days.Ok? && gap.Ok? && maxSections.Ok? && consistency.Ok? {
      WeightedSumNonNegative(weights, days.value, gap.value, modality.value, maxSections.value,
                             consistency.value);
    }
  }

  // ---------------------------------------------------------------------------------------
  // score_combinations

  const ScoreStage := "score_combinations"

  /** The combinations whose outcome is a success, each paired with its scores, in order: at
      most one pair per combination, and one for every combination exactly when none fails. */
  function Kept<A, B>(combinations: seq<A>, outcomes: seq<Result<B>>): (r: seq<(A, B)>)
    requires |outcomes| == |combinations|
    ensures |r| <= |combinations|
    ensures |r| == |combinations| <==> forall i :: 0 <= i < |outcomes| ==> outcomes[i].Ok?
  {
    if combinations == [] then []
    else
      var n := |combinations| - 1;
      assert forall i :: 0 <= i < n ==> outcomes[..n][i] == outcomes[i];
      Kept(combinations[..n], outcomes[..n])
      + (if outcomes[n].Ok? then [(combinations[n], outcomes[n].value)] else [])
  }

  /** The combinations that score, each with its scores, in input order: every combination
      is there exactly when none fails. */
  function Scored(config: Config, combinations: seq<seq<Section>>): (r: seq<(seq<Section>, Scores)>)
    ensures |r| <= |combinations|
    ensures |r| == |combinations| <==> forall i :: 0 <= i < |combinations| ==> CombinedScoreOf(config, combinations[i]).Ok?
  {
    Kept(combinations, Outcomes(config, combinations))
  }

  function ScoreKey(p: (seq<Section>, Scores)): seq<real>
  {
    [p.1.combined]
  }

  /** The outcome of scoring each combination, in input order. */
  function Outcomes(config: Config, combinations: seq<seq<Section>>): (r: seq<Result<Scores>>)
    ensures |r| == |combinations|
    ensures forall i :: 0 <= i < |combinations| ==> r[i] == CombinedScoreOf(config, combinations[i])
  {
    seq(|combinations|, i requires 0 <= i < |combinations| => CombinedScoreOf(config, combinations[i]))
  }

  /** The decorator's record for each combination, in input order. */
  function Failures(config: Config, combinations: seq<seq<Section>>): (r: seq<Option<(string, string)>>)
    ensures |r| == |combinations|
    ensures forall i :: 0 <= i < |combinations| ==> r[i] == SubScoreFailure(config, combinations[i])
  {
    seq(|combinations|, i requires 0 <= i < |combinations| => SubScoreFailure(config, combinations[i]))
  }

  const ScoringStages := {ModalityStage, DaysStage, GapsStage, MaxSectionsStage, ConsistencyStage, ScoreStage}

  /** Every failed outcome has its message recorded under the scoring stage, and every
      decorator record is in the ledger. */
  ghost predicate FailuresLogged(outcomes: seq<Result<Scores>>, failures: seq<Option<(string, string)>>, ledger: Ledger)
  {
    && (forall i :: 0 <= i < |outcomes| && outcomes[i].Err? ==> ScoreStage in ledger && outcomes[i].msg in ledger[ScoreStage])
    && (forall i :: 0 <= i < |failures| && failures[i].Some? ==>
          failures[i].value.0 in ledger && failures[i].value.1 in ledger[failures[i].value.0])
  }

  /** Entries grow, and only the scoring stages' entries change. */
  ghost predicate OnlyScoringStagesGrow(ledger: Ledger, ledger0: Ledger)
  {
    && LedgerGrows(ledger, ledger0)
    && (forall k :: k in ledger && k !in ScoringStages ==> k in ledger0 && ledger[k] == ledger0[k])
  }

  lemma FailuresLoggedStep(outcomes: seq<Result<Scores>>, failures: seq<Option<(string, string)>>,
                           r: Result<Scores>, f: Option<(string, string)>, ledger: Ledger, ledger': Ledger)
    requires FailuresLogged(outcomes, failures, ledger)
    requires LedgerGrows(ledger', ledger)
    requires r.Err? ==> ScoreStage in ledger' && r.msg in ledger'[ScoreStage]
    requires f.Some? ==> f.value.0 in ledger' && f.value.1 in ledger'[f.value.0]
    ensures FailuresLogged(outcomes + [r], failures + [f], ledger')
  {
  }

  lemma KeptSnoc<A, B>(combinations: seq<A>, outcomes: seq<Result<B>>, c: A, r: Result<B>)
    requires |outcomes| == |combinations|
    ensures Kept(combinations + [c], outcomes + [r]) == Kept(combinations, outcomes) + (if r.Ok? then [(c, r.value)] else [])
  {
    assert (combinations + [c])[..|combinations|] == combinations;
    assert (outcomes + [r])[..|outcomes|] == outcomes;
  }

  lemma OutcomesSnoc(config: Config, combinations: seq<seq<Section>>, i: nat)
    requires i < |combinations|
    ensures combinations[..i + 1] == combinations[..i] + [combinations[i]]
    ensures Outcomes(config, combinations[..i + 1]) == Outcomes(config, combinations[..i]) + [CombinedScoreOf(config, combinations[i])]
  {
    assert combinations[..i + 1] == combinations[..i] + [combinations[i]];
  }

  lemma FailuresSnoc(config: Config, combinations: seq<seq<Section>>, i: nat)
    requires i < |combinations|
    ensures Failures(config, combinations[..i + 1]) == Failures(config, combinations[..i]) + [SubScoreFailure(config, combinations[i])]
  {
    assert combinations[..i + 1] == combinations[..i] + [combinations[i]];
  }

  /** The ledger after scoring one combination: the decorator's record, then the ranking's own. */
  lemma LedgerStep(ledger: Ledger, ledger0: Ledger, f: Option<(string, string)>, r: Result<Scores>)
    requires OnlyScoringStagesGrow(ledger, ledger0)
    requires f.Some? ==> f.value.0 in ScoringStages
    ensures var l1 := LogFailure(ledger, f);
      var l2 := if r.Ok? then l1 else Record(l1, ScoreStage, r.msg);
      && OnlyScoringStagesGrow(l2, ledger0) && LedgerGrows(l2, ledger)
      && (r.Err? ==> ScoreStage in l2 && r.msg in l2[ScoreStage])
      && (f.Some? ==> f.value.0 in l2 && f.value.1 in l2[f.value.0])
  {
  }

  /** `score_combinations`: score each combination, recording the message of each one whose
      scoring fails and dropping it, then sort the pairs by combined score (stably). */
  method ScoreCombinations(config: Config, combinations: seq<seq<Section>>, ledger0: Ledger)
    returns (ranked: seq<(seq<Section>, Scores)>, ledger: Ledger)
    ensures ranked == SortBy(Scored(config, combinations), ScoreKey)
    ensures FailuresLogged(Outcomes(config, combinations), Failures(config, combinations), ledger)
    ensures OnlyScoringStagesGrow(ledger, ledger0)
  {
    var scoredCombinations: seq<(seq<Section>, Scores)> := [];
    ghost var outcomes: seq<Result<Scores>> := [];
    ghost var failures: seq<Option<(string, string)>> := [];
    ledger := ledger0;
    for i := 0 to |combinations|
      invariant outcomes == Outcomes(config, combinations[..i])
      invariant failures == Failures(config, combinations[..i])
      invariant scoredCombinations == Kept(combinations[..i], outcomes)
      invariant FailuresLogged(outcomes, failures, ledger)
      invariant OnlyScoringStagesGrow(ledger, ledger0)
    {
      ghost var f := SubScoreFailure(config, combinations[i]);
      FailureStage(ModalityResult(config, combinations[i]), DaysResult(config, combinations[i]),
                   GapsResult(config, combinations[i]), MaxSectionsResult(config, combinations[i]),
                   ConsistencyResult(config, combinations[i]));
      var scores, ledger' := CombinedScore(config, combinations[i], ledger);
      if scores.Ok? {
        scoredCombinations := scoredCombinations + [(combinations[i], scores.value)];
      } else {
        ledger' := Record(ledger', ScoreStage, scores.msg);
      }
      LedgerStep(ledger, ledger0, f, scores);
      FailuresLoggedStep(outcomes, failures, scores, f, ledger, ledger');
      KeptSnoc(combinations[..i], outcomes, combinations[i], scores);
      OutcomesSnoc(config, combinations, i);
      FailuresSnoc(config, combinations, i);
      ledger, outcomes, failures := ledger', outcomes + [scores], failures + [f];
    }
    assert combinations[..|combinations|] == combinations;
    ranked := SortBy(scoredCombinations, ScoreKey);
  }

  /** A pair is kept exactly when some position holds its combination with a successful
      outcome giving its scores. */
  lemma {:induction false} KeptMembers<A, B>(combinations: seq<A>, outcomes: seq<Result<B>>, p: (A, B))
    requires |outcomes| == |combinations|
    ensures p in Kept(combinations, outcomes) <==>
      exists i :: 0 <= i < |combinations| && combinations[i] == p.0 && outcomes[i] == Ok(p.1)
  {
    if combinations != [] {
      var n := |combinations| - 1;
      KeptMembers(combinations[..n], outcomes[..n], p);
      if exists i :: 0 <= i < |combinations| && combinations[i] == p.0 && outcomes[i] == Ok(p.1) {
        var i :| 0 <= i < |combinations| && combinations[i] == p.0 && outcomes[i] == Ok(p.1);
        if i < n {
          assert combinations[..n][i] == p.0 && outcomes[..n][i] == Ok(p.1);
        }
      }
      if p in Kept(combinations[..n], outcomes[..n]) {
        var i :| 0 <= i < n && combinations[..n][i] == p.0 && outcomes[..n][i] == Ok(p.1);
        assert combinations[i] == p.0 && outcomes[i] == Ok(p.1);
      }
    }
  }

  /** A pair is scored exactly when its combination is an input whose scoring succeeds with
      those scores. */
  lemma ScoredMembers(config: Config, combinations: seq<seq<Section>>, p: (seq<Section>, Scores))
    ensures p in Scored(config, combinations) <==> p.0 in combinations && CombinedScoreOf(config, p.0) == Ok(p.1)
  {
    var outcomes := Outcomes(config, combinations);
    KeptMembers(combinations, outcomes, p);
    if p.0 in combinations && CombinedScoreOf(config, p.0) == Ok(p.1) {
      var i :| 0 <= i < |combinations| && combinations[i] == p.0;
      assert outcomes[i] == Ok(p.1);
    }
  }

  /** The ranking: non-decreasing combined scores, the scored pairs and nothing else, and ties
      in input order. */
  lemma RankingFacts(config: Config, combinations: seq<seq<Section>>)
    ensures var ranked := SortBy(Scored(config, combinations), ScoreKey);
      forall i, j :: 0 <= i < j < |ranked| ==> ranked[i].1.combined <= ranked[j].1.combined
    ensures var ranked := SortBy(Scored(config, combinations), ScoreKey);
      forall p :: p in ranked <==> p.0 in combinations && CombinedScoreOf(config, p.0) == Ok(p.1)
    ensures var s := Scored(config, combinations);
      var tagged := SortBy(Tag(s), Lift(ScoreKey));
      Untag(tagged) == SortBy(s, ScoreKey) && TiesInTagOrder(tagged, ScoreKey)
  {
    var s := Scored(config, combinations);
    var ranked := SortBy(s, ScoreKey);
    forall i, j | 0 <= i < j < |ranked| ensures ranked[i].1.combined <= ranked[j].1.combined {
      LexLeHead(ScoreKey(ranked[i]), ScoreKey(ranked[j]));
    }
    forall p ensures p in ranked <==> p.0 in combinations && CombinedScoreOf(config, p.0) == Ok(p.1) {
      ScoredMembers(config, combinations, p);
      assert p in ranked <==> p in multiset(ranked);
    }
    SortIsStable(s, ScoreKey);
  }

  // ---------------------------------------------------------------------------------------
  // score_combinations as written: its handler refers to `errors` and `logger`, which
  // scoring.py never defines or imports, so the first failing combination raises NameError
  // from inside the handler and no ranking is returned at all.

  const NameErrorMsg := "name 'errors' is not defined"

  /** The ranking as written: any failing combination ends the call with `NameError`;
      otherwise every combination is ranked. */
  function RankAsWritten(config: Config, combinations: seq<seq<Section>>): (r: Result<seq<(seq<Section>, Scores)>>)
    ensures r.Err? <==> exists i :: 0 <= i < |combinations| && CombinedScoreOf(config, combinations[i]).Err?
    ensures r.Err? ==> r.msg == NameErrorMsg
    ensures r.Ok? ==> |r.value| == |combinations|
  {
    if exists i :: 0 <= i < |combinations| && CombinedScoreOf(config, combinations[i]).Err? then Err(NameErrorMsg)
    else Ok(SortBy(Scored(config, combinations), ScoreKey))
  }

  /** One failing combination makes the handler as written lose every score, where the
      intended ranking still holds every combination that scores; with no failure the two
      agree. */
  lemma AsWrittenLosesRanking(config: Config, combinations: seq<seq<Section>>, bad: nat)
    requires bad < |combinations| && CombinedScoreOf(config, combinations[bad]).Err?
    ensures RankAsWritten(config, combinations) == Err(NameErrorMsg)
    ensures forall j :: 0 <= j < |combinations| && CombinedScoreOf(config, combinations[j]).Ok? ==>
      (combinations[j], CombinedScoreOf(config, combinations[j]).value) in SortBy(Scored(config, combinations), ScoreKey)
  {
    RankingFacts(config, combinations);
  }

  /** Under the shipped configuration every non-empty input ends in NameError as written,
      while the intended ranking is empty. */
  lemma ShippedRankingAsWritten(combinations: seq<seq<Section>>)
    requires combinations != []
    ensures RankAsWritten(Shipped, combinations) == Err(NameErrorMsg)
    ensures SortBy(Scored(Shipped, combinations), ScoreKey) == []
  {
    ShippedConfigFails(combinations[0]);
    forall i | 0 <= i < |combinations| ensures Outcomes(Shipped, combinations)[i].Err? {
      ShippedConfigFails(combinations[i]);
    }
    NothingKept(combinations, Outcomes(Shipped, combinations));
  }

  lemma {:induction false} NothingKept(combinations: seq<seq<Section>>, outcomes: seq<Result<Scores>>)
    requires |outcomes| == |combinations|
    requires forall i :: 0 <= i < |outcomes| ==> outcomes[i].Err?
    ensures Kept(combinations, outcomes) == []
  {
    if combinations != [] {
      var n := |combinations| - 1;
      NothingKept(combinations[..n], outcomes[..n]);
    }
  }

  /** Without a failing combination the handler is never entered and both versions agree. */
  lemma AsWrittenAgreesWithoutFailures(config: Config, combinations: seq<seq<Section>>)
    requires forall i :: 0 <= i < |combinations| ==> CombinedScoreOf(config, combinations[i]).Ok?
    ensures RankAsWritten(config, combinations) == Ok(SortBy(Scored(config, combinations), ScoreKey))
  {
  }
}
