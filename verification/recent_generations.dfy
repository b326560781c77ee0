/** The recent-generations list: the relative-time, duration and truncation
    formatters and what each card shows (play and download actions, the
    status badges, the duration label, the download file name). The clock
    is a parameter: `now` and `createdAt` are millisecond timestamps. */
module RecentGenerations {
  import opened Outcomes
  import opened Schema
  import opened Text

  const MsPerHour: int := 1000 * 60 * 60
  const MsPerDay: int := 24 * MsPerHour

  const TitleLimit: nat := 50
  const ContentLimit: nat := 120
  const ProcessingLabel: string := "Processing..."

  /** The plural ending, used only for counts above one. */
  function Plural(n: int): string {
    if n > 1 then "s" else ""
  }

  /** `formatTimeAgo`: whole hours under a day, whole days after that. */
  function FormatTimeAgo(now: int, past: int): (s: string)
    ensures now - past < MsPerHour ==> s == "Less than an hour ago"
    ensures now - past >= MsPerHour ==> |s| > 0 && IsDigit(s[0])
  {
    var diffInHours := (now - past) / MsPerHour;
    if diffInHours < 1 then "Less than an hour ago"
    else if diffInHours < 24 then IntString(diffInHours) + " hour" + Plural(diffInHours) + " ago"
    else
      var diffInDays := diffInHours / 24;
      IntString(diffInDays) + " day" + Plural(diffInDays) + " ago"
  }

  /** The whole hours in `x` milliseconds, as `Math.floor` computes them. */
  lemma HourBounds(x: int)
    requires x >= MsPerHour
    ensures var h := x / MsPerHour; h >= 1 && h * MsPerHour <= x < (h + 1) * MsPerHour
  {
  }

  /** Whole days taken as whole hours divided by 24 are the whole days. */
  lemma DayBounds(x: int)
    requires x >= MsPerDay
    ensures var d := (x / MsPerHour) / 24; d >= 1 && d * MsPerDay <= x < (d + 1) * MsPerDay
  {
    var h := x / MsPerHour;
    var d := h / 24;
    HourBounds(x);
    assert d * 24 <= h < d * 24 + 24;
    assert d * MsPerDay == (d * 24) * MsPerHour;
    assert (d + 1) * MsPerDay == (d * 24 + 24) * MsPerHour;
  }

  /** The label's text between one hour and a day. */
  lemma HoursText(now: int, past: int)
    requires MsPerHour <= now - past < MsPerDay
    ensures var h := (now - past) / MsPerHour;
      && 1 <= h < 24 && h * MsPerHour <= now - past < (h + 1) * MsPerHour
      && FormatTimeAgo(now, past) == Decimal(h) + (if h > 1 then " hours ago" else " hour ago")
  {
    HourBounds(now - past);
  }

  /** The label's text from one day on. */
  lemma DaysText(now: int, past: int)
    requires now - past >= MsPerDay
    ensures var d := ((now - past) / MsPerHour) / 24;
      d >= 1 && FormatTimeAgo(now, past) == Decimal(d) + (if d > 1 then " days ago" else " day ago")
  {
    DayBounds(now - past);
  }

  /** Between one hour and a day, the label names the number of whole hours
      elapsed, with "hours" only above one. */
  lemma TimeAgoInHours(now: int, past: int)
    requires MsPerHour <= now - past < MsPerDay
    ensures var s := FormatTimeAgo(now, past);
      var n := LeadingNumber(s);
      && 1 <= n < 24
      && n * MsPerHour <= now - past < (n + 1) * MsPerHour
      && s == Decimal(n) + (if n > 1 then " hours ago" else " hour ago")
  {
    var h := (now - past) / MsPerHour;
    HoursText(now, past);
    LeadingNumberOfDecimal(h, if h > 1 then " hours ago" else " hour ago");
  }

  /** From one day on, the label names the number of whole days elapsed,
      with "days" only above one. */
  lemma TimeAgoInDays(now: int, past: int)
    requires now - past >= MsPerDay
    ensures var s := FormatTimeAgo(now, past);
      var n := LeadingNumber(s);
      && n >= 1
      && n * MsPerDay <= now - past < (n + 1) * MsPerDay
      && s == Decimal(n) + (if n > 1 then " days ago" else " day ago")
  {
    var d := ((now - past) / MsPerHour) / 24;
    DayBounds(now - past);
    DaysText(now, past);
    LeadingNumberOfDecimal(d, if d > 1 then " days ago" else " day ago");
  }

  /** `seconds % 60` with JavaScript's `%`: the remainder takes the sign of
      the dividend. */
  function JsRem60(a: int): (r: int)
    ensures a >= 0 ==> 0 <= r < 60
    ensures a < 0 ==> -60 < r <= 0
    ensures (a - r) % 60 == 0
  {
    if a >= 0 then a % 60 else -((-a) % 60)
  }

  /** `formatDuration`: `${Math.floor(s / 60)}:${(s % 60)} padded to two`. */
  function FormatDuration(seconds: int): (s: string)
    ensures seconds >= 0 ==> ReadClock(s) == Some(seconds)
  {
    var minutes := seconds / 60;
    var remainingSeconds := JsRem60(seconds);
    var s := IntString(minutes) + ":" + PadStart2(IntString(remainingSeconds));
    if seconds >= 0 then
      assert minutes * 60 + remainingSeconds == seconds;
      assert ReadClock(s) == Some(seconds) by { ClockOf(minutes, remainingSeconds); }
      s
    else s
  }

  /** Reads an `m:ss` label back into seconds: a non-empty run of digits, a
      colon, exactly two digits. */
  function ReadClock(clock: string): Option<nat> {
    var n := |clock|;
    if n >= 4 && clock[n - 3] == ':' && AllDigits(clock[..n - 3]) && AllDigits(clock[n - 2..])
    then Some(ParseDigits(clock[..n - 3]) * 60 + ParseDigits(clock[n - 2..]))
    else None
  }

  /** Padding a numeral with zeros keeps its digits and its value. */
  lemma PaddedNumeral(d: string)
    requires |d| >= 1 && AllDigits(d)
    ensures AllDigits(PadStart2(d)) && ParseDigits(PadStart2(d)) == ParseDigits(d)
  {
    if |d| == 1 {
      LeadingZero(d);
    }
  }

  /** A numeral below 100 has at most two digits. */
  lemma SmallNumeral(n: nat)
    requires n < 100
    ensures |Decimal(n)| <= 2
  {
    if n >= 10 {
      assert Decimal(n) == Decimal(n / 10) + [DigitChar(n % 10)];
    }
  }

  /** Seconds below 60, padded, are two digits that read back as the seconds. */
  lemma PaddedSeconds(secs: nat)
    requires secs < 60
    ensures var p := PadStart2(Decimal(secs));
      |p| == 2 && AllDigits(p) && ParseDigits(p) == secs
  {
    var sec := Decimal(secs);
    PaddedNumeral(sec);
    SmallNumeral(secs);
    DecimalRoundTrip(secs);
  }

  /** Digits, a colon and two digits read as 60 times the first group plus
      the second. */
  lemma ReadDigitGroups(m: string, p: string, minutes: nat, secs: nat)
    requires |m| > 0 && AllDigits(m) && ParseDigits(m) == minutes
    requires |p| == 2 && AllDigits(p) && ParseDigits(p) == secs
    ensures ReadClock(m + ":" + p) == Some(minutes * 60 + secs)
  {
    var clock := m + ":" + p;
    assert clock[..|clock| - 3] == m;
    assert clock[|clock| - 2..] == p;
    assert clock[|clock| - 3] == ':';
  }

  /** The label of a non-negative duration: whole minutes, a colon, the
      padded seconds. */
  lemma FormatDurationParts(seconds: int)
    requires seconds >= 0
    ensures FormatDuration(seconds) == Decimal(seconds / 60) + ":" + PadStart2(Decimal(seconds % 60))
  {
  }

  /** A clock built from whole minutes and seconds below 60 reads back as
      60 * minutes + seconds. */
  lemma ClockOf(minutes: nat, secs: nat)
    requires secs < 60
    ensures ReadClock(Decimal(minutes) + ":" + PadStart2(Decimal(secs))) == Some(minutes * 60 + secs)
  {
    PaddedSeconds(secs);
    DecimalRoundTrip(minutes);
    ReadDigitGroups(Decimal(minutes), PadStart2(Decimal(secs)), minutes, secs);
  }

  /** For a non-negative number of seconds the label is whole minutes, a
      colon and two digits of seconds below 60, and reading it back gives
      the number. */
  lemma DurationRoundTrip(seconds: int)
    requires seconds >= 0
    ensures ReadClock(FormatDuration(seconds)) == Some(seconds)
  {
    var minutes := seconds / 60;
    var secs := seconds % 60;
    assert minutes * 60 + secs == seconds;
    FormatDurationParts(seconds);
    ClockOf(minutes, secs);
  }

  /** `truncateTitle` with its default limit. */
  function TruncateTitle(title: string): (r: string)
    ensures |title| <= TitleLimit ==> r == title
    ensures |title| > TitleLimit ==> r == title[..TitleLimit] + "..."
    ensures |r| <= TitleLimit + 3
  {
    Truncate(title, TitleLimit)
  }

  /** `truncateContent` with its default limit. */
  function TruncateContent(content: string): (r: string)
    ensures |content| <= ContentLimit ==> r == content
    ensures |content| > ContentLimit ==> r == content[..ContentLimit] + "..."
    ensures |r| <= ContentLimit + 3
  {
    Truncate(content, ContentLimit)
  }

  /** The duration label: a falsy duration (missing or 0) shows
      "Processing...", any other one a clock. */
  function DurationLabel(duration: Option<int>): (s: string)
    ensures !TruthyInt(duration) ==> s == ProcessingLabel
    ensures TruthyInt(duration) ==> ':' in s && s != ProcessingLabel
    ensures TruthyInt(duration) && duration.value > 0 ==> ReadClock(s) == Some(duration.value)
  {
    if TruthyInt(duration) then
      assert ClockLabel(duration.value) by { ClockLabelFacts(duration.value); }
      FormatDuration(duration.value)
    else ProcessingLabel
  }

  /** What a clock label shows: a colon, so never the processing text, and
      for a positive duration a clock that reads back as the duration. */
  predicate ClockLabel(d: int) {
    var s := FormatDuration(d);
    ':' in s && s != ProcessingLabel && (d > 0 ==> ReadClock(s) == Some(d))
  }

  lemma ClockLabelFacts(d: int)
    ensures ClockLabel(d)
  {
    ClockHasColon(d);
    if d > 0 {
      DurationRoundTrip(d);
    }
  }

  /** Every clock label has a colon after the minutes. */
  lemma ClockHasColon(d: int)
    ensures ':' in FormatDuration(d) && FormatDuration(d) != ProcessingLabel
  {
    var m := IntString(d / 60);
    var p := PadStart2(IntString(JsRem60(d)));
    assert FormatDuration(d) == m + ":" + p;
    assert (m + ":" + p)[|m|] == ':';
    assert ProcessingLabel[10] != ':' && |ProcessingLabel| == 13;
  }

  /** What the download button saves: the audio URL under `podcast_<id>.mp3`. */
  datatype Download = Download(href: string, fileName: string)

  /** One card of the list. */
  datatype Card = Card(
    title: string,
    timeAgo: string,
    excerpt: string,
    durationLabel: string,
    actions: Option<Download>,
    processingBadge: bool,
    failedBadge: bool)

  /** The card for one record. */
  function RenderCard(p: Podcast, now: int): (c: Card)
    ensures c.actions.Some? <==> p.status == Completed && TruthyString(p.audioUrl)
    ensures c.actions.Some? ==> c.actions.value == Download(p.audioUrl.value, "podcast_" + p.id + ".mp3")
    ensures c.processingBadge <==> p.status == Processing
    ensures c.failedBadge <==> p.status == Failed
    ensures c.title == TruncateTitle(p.title) && c.excerpt == TruncateContent(p.originalContent)
    ensures c.timeAgo == FormatTimeAgo(now, p.createdAt)
    ensures c.durationLabel == DurationLabel(p.duration)
  {
    Card(
      TruncateTitle(p.title),
      FormatTimeAgo(now, p.createdAt),
      TruncateContent(p.originalContent),
      DurationLabel(p.duration),
      if p.status == Completed && TruthyString(p.audioUrl)
      then Some(Download(p.audioUrl.value, "podcast_" + p.id + ".mp3"))
      else None,
      p.status == Processing,
      p.status == Failed)
  }

  /** At most one of the three status indications is shown, and a record
      in one of the two generating stages shows none of them. */
  lemma StatusIndicationsExclusive(p: Podcast, now: int)
    ensures var c := RenderCard(p, now);
      && !(c.processingBadge && c.failedBadge)
      && !(c.actions.Some? && (c.processingBadge || c.failedBadge))
      && (p.status in {GeneratingScript, GeneratingAudio} ==>
            c.actions.None? && !c.processingBadge && !c.failedBadge)
  {
  }

  /** The list: an empty-state panel, or one card per record in order. */
  datatype RecentView = NoPodcastsYet | Cards(cards: seq<Card>)

  function RenderRecent(podcasts: seq<Podcast>, now: int): (v: RecentView)
    ensures v.NoPodcastsYet? <==> |podcasts| == 0
    ensures v.Cards? ==> |v.cards| == |podcasts|
    ensures v.Cards? ==> forall i :: 0 <= i < |podcasts| ==> v.cards[i] == RenderCard(podcasts[i], now)
  {
    if |podcasts| == 0 then NoPodcastsYet
    else Cards(seq(|podcasts|, i requires 0 <= i < |podcasts| => RenderCard(podcasts[i], now)))
  }
}
