/**
 * The "Recent Translations" list of the front end: the items it shows, how
 * it words the age of an item, and which item is drawn as the active one.
 */
module TranslationHistory {
  import opened Text

  /**
   * One translation in the history. `id` is the decimal text of a
   * `Date.now()` reading, kept here as that number (the decimal text is
   * injective on numbers). Label and translated text are absent for a
   * language the page has no entry for.
   */
  datatype HistoryItem = HistoryItem(
    id: int,
    sourceText: string,
    translatedText: Option<string>,
    sourceLanguage: Option<string>,
    timestamp: int,
    isActive: bool)

  /** What `formatTime` produces: "Just now", "{m}m ago", "{h}h ago" or the locale date of the timestamp. */
  datatype Age = JustNow | MinutesAgo(minutes: int) | HoursAgo(hours: int) | LocaleDate(timestamp: int)

  const MinuteMs := 60000
  const HourMs := 60 * MinuteMs
  const DayMs := 24 * HourMs

  /**
   * `formatTime(timestamp)` read at clock value `now` (both in
   * milliseconds): whole minutes are `Math.floor(diff / 60000)`, which for
   * a positive divisor is Dafny's `/`, and whole hours are those minutes
   * divided by 60, again rounded down.
   */
  function FormatTime(timestamp: int, now: int): (a: Age)
    ensures a.JustNow? <==> now - timestamp < MinuteMs
    ensures a.MinutesAgo? <==> MinuteMs <= now - timestamp < HourMs
    ensures a.HoursAgo? <==> HourMs <= now - timestamp < DayMs
    ensures a.LocaleDate? <==> DayMs <= now - timestamp
    ensures a.MinutesAgo? ==>
      (1 <= a.minutes < 60 && a.minutes * MinuteMs <= now - timestamp < (a.minutes + 1) * MinuteMs)
    ensures a.HoursAgo? ==>
      (1 <= a.hours < 24 && a.hours * HourMs <= now - timestamp < (a.hours + 1) * HourMs)
    ensures a.LocaleDate? ==> a.timestamp == timestamp
  {
    var diff := now - timestamp;
    var minutes := diff / 60000;
    if minutes < 1 then JustNow
    else if minutes < 60 then MinutesAgo(minutes)
    else
      var hours := minutes / 60;
      if hours < 24 then HoursAgo(hours) else LocaleDate(timestamp)
  }

  /** The bucket edges: one millisecond short of a minute is still "Just now", and each unit starts exactly on its boundary. */
  lemma FormatTimeBoundaries(t: int)
    ensures FormatTime(t, t + 59999) == JustNow
    ensures FormatTime(t, t + 60000) == MinutesAgo(1)
    ensures FormatTime(t, t + 3599999) == MinutesAgo(59)
    ensures FormatTime(t, t + 3600000) == HoursAgo(1)
    ensures FormatTime(t, t + 86399999) == HoursAgo(23)
    ensures FormatTime(t, t + 86400000) == LocaleDate(t)
  {
  }

  /** A timestamp later than the clock (a negative difference) reads "Just now". */
  lemma FutureIsJustNow(timestamp: int, now: int)
    requires now < timestamp
    ensures FormatTime(timestamp, now) == JustNow
  {
  }

  /** The age never goes back as the clock advances: the bucket order is Just now, minutes, hours, date. */
  lemma AgeMonotone(timestamp: int, now: int, later: int)
    requires now <= later
    ensures Rank(FormatTime(timestamp, now)) <= Rank(FormatTime(timestamp, later))
    ensures FormatTime(timestamp, now).MinutesAgo? && FormatTime(timestamp, later).MinutesAgo?
      ==> FormatTime(timestamp, now).minutes <= FormatTime(timestamp, later).minutes
    ensures FormatTime(timestamp, now).HoursAgo? && FormatTime(timestamp, later).HoursAgo?
      ==> FormatTime(timestamp, now).hours <= FormatTime(timestamp, later).hours
  {
  }

  function Rank(a: Age): nat {
    match a
    case JustNow => 0
    case MinutesAgo(_) => 1
    case HoursAgo(_) => 2
    case LocaleDate(_) => 3
  }

  /** The button variant of a row. */
  datatype Variant = Secondary | Ghost

  /**
   * One rendered row: its key, the language line, the age, the source and
   * translated text, the variant and whether the "revisit" marker is drawn.
   */
  datatype Row = Row(
    key: int,
    language: Option<string>,
    age: Age,
    sourceText: string,
    translatedText: Option<string>,
    variant: Variant,
    marker: bool)

  function RowOf(item: HistoryItem, now: int): Row {
    Row(item.id, item.sourceLanguage, FormatTime(item.timestamp, now), item.sourceText, item.translatedText,
      if item.isActive then Secondary else Ghost, item.isActive)
  }

  /**
   * The component: nothing at all for an empty list, otherwise one row per
   * item in list order, drawn with the active variant and marker exactly
   * when the item is active.
   */
  function Render(items: seq<HistoryItem>, now: int): (r: Option<seq<Row>>)
    ensures r.None? <==> items == []
    ensures r.Some? ==> |r.value| == |items|
    ensures r.Some? ==> forall i :: 0 <= i < |items| ==>
      r.value[i].key == items[i].id && r.value[i].sourceText == items[i].sourceText
      && (r.value[i].variant == Secondary <==> items[i].isActive)
      && (r.value[i].marker <==> items[i].isActive)
  {
    if items == [] then None
    else Some(seq(|items|, i requires 0 <= i < |items| => RowOf(items[i], now)))
  }

  /** Items with pairwise distinct ids. */
  predicate UniqueIds(items: seq<HistoryItem>) {
    forall i, j :: 0 <= i < j < |items| ==> items[i].id != items[j].id
  }

  /** The item at `k` is the only active one. */
  predicate OnlyActive(items: seq<HistoryItem>, k: int) {
    0 <= k < |items| && forall i :: 0 <= i < |items| ==> (items[i].isActive <==> i == k)
  }

  /** A list with exactly one active item renders exactly one marked row, the active item's. */
  lemma OneMarkedRow(items: seq<HistoryItem>, k: int, now: int)
    requires OnlyActive(items, k)
    ensures Render(items, now).Some?
    ensures forall i :: 0 <= i < |items| ==> (Render(items, now).value[i].marker <==> i == k)
  {
  }
}
