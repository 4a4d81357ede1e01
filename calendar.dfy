/**
 * Dates as the formatters see them, and `getDayOfWeek`. The locale- and
 * time-zone-dependent fields of a JavaScript `Date` are supplied as data.
 */
module Calendar {

  type Hour = h: int | 0 <= h < 24

  /** The value of `Date.prototype.getDay`: 0 is Sunday, 6 is Saturday. */
  type Weekday = d: int | 0 <= d < 7

  /**
   * A `Date` built from an API timestamp `dt` (seconds since the epoch), with
   * the local-time fields derived from it: `dayKey` is
   * `toLocaleDateString('ru-RU')`, `hour` is `getHours()`, `weekday` is `getDay()`.
   */
  datatype LocalDate = LocalDate(epochSeconds: int, dayKey: string, hour: Hour, weekday: Weekday)

  /** Russian abbreviations of the weekdays, Sunday first. */
  const DayNames: seq<string> := ["Вс", "Пн", "Вт", "Ср", "Чт", "Пт", "Сб"]

  /** `getDayOfWeek(date)`: the abbreviation of the date's weekday. */
  function DayOfWeek(date: LocalDate): (name: string)
    ensures name in DayNames
    ensures |name| == 2
    ensures name == "Вс" <==> date.weekday == 0
  {
    DayNames[date.weekday]
  }

  /** Two dates get the same abbreviation exactly when they fall on the same weekday. */
  lemma {:induction false} DayOfWeekInjective(a: LocalDate, b: LocalDate)
    ensures DayOfWeek(a) == DayOfWeek(b) <==> a.weekday == b.weekday
  {
    if a.weekday != b.weekday {
      assert DayNames[a.weekday] != DayNames[b.weekday] by {
        assert DayNames[a.weekday][1] != DayNames[b.weekday][1]
            || DayNames[a.weekday][0] != DayNames[b.weekday][0];
      }
    }
  }
}
