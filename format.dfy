/**
  Formatting utilities: the uptime classifier and the placeholder handling of
  the percent and date formatters. The digits themselves (`toFixed`, locale
  date rendering) are host-library output and are kept abstract.
 */
module Format {
  import opened Wrappers
  import opened Records

  /** The glyph shown for a missing or unreadable value. */
  const Placeholder: string := "–"

  const GoodThreshold: real := 99.95
  const WarnThreshold: real := 99.0

  datatype UptimeClass = UptimeUnknown | Good | Warn | Bad

  /** Health order of the known buckets: Bad < Warn < Good. */
  function Health(c: UptimeClass): nat {
    match c
    case Good => 2
    case Warn => 1
    case _ => 0
  }

  /**
    `classifyUptime`: null or undefined is unknown; otherwise the first
    inclusive lower bound that the value meets. NaN meets no bound and is bad.
   */
  function ClassifyUptime(uptime: Option<Number>): (c: UptimeClass)
    ensures c == UptimeUnknown <==> uptime == None
    ensures uptime == Some(NaN) ==> c == Bad
  {
    match uptime
    case None => UptimeUnknown
    case Some(NaN) => Bad
    case Some(Num(x)) =>
      if x >= GoodThreshold then Good
      else if x >= WarnThreshold then Warn
      else Bad
  }

  /** The buckets as half-open intervals of the percentage. */
  lemma ClassifyUptimeBuckets(x: real)
    ensures ClassifyUptime(Some(Num(x))) == Good <==> 99.95 <= x
    ensures ClassifyUptime(Some(Num(x))) == Warn <==> 99.0 <= x < 99.95
    ensures ClassifyUptime(Some(Num(x))) == Bad <==> x < 99.0
  {
  }

  /** A larger percentage is never classified as less healthy. */
  lemma ClassifyUptimeMonotone(x: real, y: real)
    requires x <= y
    ensures Health(ClassifyUptime(Some(Num(x)))) <= Health(ClassifyUptime(Some(Num(y))))
  {
  }

  /** What `formatPercent` renders: the placeholder, or the value to `decimals` places followed by "%". */
  datatype PercentText = PercentPlaceholder | FixedPercent(value: real, decimals: nat)

  /** `formatPercent`: null, undefined and NaN give the placeholder; a number is shown to three places. */
  function FormatPercent(value: Option<Number>): (t: PercentText)
    ensures t == PercentPlaceholder <==> value == None || value == Some(NaN)
    ensures t.FixedPercent? ==> value == Some(Num(t.value)) && t.decimals == 3
  {
    match value
    case Some(Num(x)) => FixedPercent(x, 3)
    case _ => PercentPlaceholder
  }

  /**
    A NaN uptime is shown as the placeholder yet classified as bad, whereas a
    missing uptime is shown as the placeholder and classified as unknown.
   */
  lemma PlaceholderUptimeClasses(value: Option<Number>)
    requires FormatPercent(value) == PercentPlaceholder
    ensures ClassifyUptime(value) == (if value == None then UptimeUnknown else Bad)
  {
  }

  /**
    What the date formatters render: the placeholder, or the host's locale
    rendering of a parseable timestamp ("month day, hour:minute" or "month day").
   */
  datatype DateText = DatePlaceholder | LongDate(timestamp: string) | ShortDate(timestamp: string)

  /**
    `formatDate`: a falsy value (null, undefined, "") or one that `new Date`
    cannot parse gives the placeholder. Whether the host parses a string is
    the `parses` argument.
   */
  function FormatDate(value: Option<string>, parses: string -> bool): (t: DateText)
    ensures t != DatePlaceholder <==> value.Some? && value.value != "" && parses(value.value)
    ensures t != DatePlaceholder ==> t == LongDate(value.value)
  {
    if value == None || value.value == "" then DatePlaceholder
    else if !parses(value.value) then DatePlaceholder
    else LongDate(value.value)
  }

  /** `formatShortDate`: the same placeholder rules with the "month day" rendering. */
  function FormatShortDate(value: Option<string>, parses: string -> bool): (t: DateText)
    ensures t != DatePlaceholder <==> value.Some? && value.value != "" && parses(value.value)
    ensures t != DatePlaceholder ==> t == ShortDate(value.value)
  {
    if value == None || value.value == "" then DatePlaceholder
    else if !parses(value.value) then DatePlaceholder
    else ShortDate(value.value)
  }
}
