/** The section record the scheduler works on: one row of the catalog, with the fields the core
    reads, and the `parsed_*` annotations that the conflict detector memoises into it. */
module Sections {
  import opened Wrappers

  /** A time of day, in seconds after midnight (Python's `datetime.time`, without microseconds). */
  type Time = t: int | 0 <= t < 86400

  /** `time(h, m)`. */
  function HM(h: int, m: int): Time
    requires 0 <= h < 24 && 0 <= m < 60
  {
    h * 3600 + m * 60
  }

  /** `t.hour * 60 + t.minute`: the minute of the day, seconds ignored. */
  function MinuteOfDay(t: Time): (m: int)
    ensures 0 <= m < 1440 && m * 60 <= t < m * 60 + 60
  {
    t / 60
  }

  /** A calendar date, as a day number. */
  type Date = int

  /** The `parsed_*` keys that `parse_section_times` adds to a section; `None` means the key is
      absent. A present time key may hold `None` (no meeting time). */
  datatype Memo = Memo(
    startTime: Option<Option<Time>>,
    endTime: Option<Option<Time>>,
    startDate: Option<Date>,
    endDate: Option<Date>,
    days: Option<set<string>>)

  const NoMemo := Memo(None, None, None, None, None)

  /** A course section. `sTime`/`eTime` are `None` for a section without meeting times (an empty
      `STime`/`ETime`); `mtgDays` and `coreqSections` are the raw comma-separated texts, empty
      when absent. */
  datatype Section = Section(
    name: string,
    sTime: Option<Time>,
    eTime: Option<Time>,
    sDate: Date,
    eDate: Date,
    mtgDays: string,
    instructionMethod: string,
    coreqSections: string,
    memo: Memo)

  /** `DAYS_OF_WEEK`. */
  const Days: seq<string> := ["M", "T", "W", "TH", "F", "S", "SU"]
}
