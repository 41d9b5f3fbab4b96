/** The text line pushed for one (namespace, group, topic): Go's
    fmt.Sprintf(`kafka_lag{namespace="%s", Consumer_Group="%s", Topic="%s"} %d`, ...),
    with a parser used only to state what the line carries. */
module Exposition {
  import opened Wrappers
  import opened GoInt

  /** The four values one metric line reports. */
  datatype MetricRecord = MetricRecord(namespace: string, group: string, topic: string, lag: int)

  predicate IsDigit(c: char) {
    '0' <= c <= '9'
  }

  function DigitChar(d: nat): (c: char)
    requires d < 10
    ensures IsDigit(c) && c as int - '0' as int == d
  {
    ('0' as int + d) as char
  }

  /** The decimal digits of n, most significant first, without leading zeros (Go's %d of a
      non-negative value). */
  function Digits(n: nat): (s: string)
    ensures |s| > 0 && forall i :: 0 <= i < |s| ==> IsDigit(s[i])
    ensures s[0] == '0' ==> n == 0
    decreases n
  {
    if n < 10 then [DigitChar(n)] else Digits(n / 10) + [DigitChar(n % 10)]
  }

  /** Go's %d of an integer: a minus sign for negative values, then the digits of the magnitude. */
  function DecimalString(x: int): (s: string)
    ensures |s| > 0
    ensures s[0] == '-' <==> x < 0
  {
    if x < 0 then "-" + Digits(-x) else Digits(x)
  }

  /** The value of a non-empty string of decimal digits. */
  function ParseDigits(s: string): Option<nat>
    decreases |s|
  {
    if |s| == 0 || !IsDigit(s[|s| - 1]) then None
    else
      var d := s[|s| - 1] as int - '0' as int;
      if |s| == 1 then Some(d)
      else match ParseDigits(s[..|s| - 1])
        case None => None
        case Some(n) => Some(n * 10 + d)
  }

  function ParseDecimal(s: string): Option<int> {
    if |s| > 0 && s[0] == '-' then
      match ParseDigits(s[1..])
      case None => None
      case Some(n) => Some(0 - n as int)
    else
      match ParseDigits(s)
      case None => None
      case Some(n) => Some(n)
  }

  lemma {:induction false} ParseDigitsRoundTrip(n: nat)
    ensures ParseDigits(Digits(n)) == Some(n)
    decreases n
  {
    var s := Digits(n);
    if n >= 10 {
      assert s[..|s| - 1] == Digits(n / 10);
      ParseDigitsRoundTrip(n / 10);
    }
  }

  /** Reading back the number Go prints gives the same number. */
  lemma DecimalRoundTrip(x: int)
    ensures ParseDecimal(DecimalString(x)) == Some(x)
  {
    if x < 0 {
      assert DecimalString(x)[1..] == Digits(-x);
      ParseDigitsRoundTrip(-x);
    } else {
      ParseDigitsRoundTrip(x);
    }
  }

  const LinePrefix: string := "kafka_lag{namespace=\""
  const GroupLabel: string := "\", Consumer_Group=\""
  const TopicLabel: string := "\", Topic=\""
  const ValueSeparator: string := "\"} "

  /** The line pushed for one topic of one group (main.go:205). Label values are inserted
      as they are, without escaping. */
  function MetricLine(namespace: string, group: string, topic: string, lag: int64): string {
    LinePrefix + namespace + GroupLabel + group + TopicLabel + topic + ValueSeparator + DecimalString(lag)
  }

  function StripPrefix(prefix: string, s: string): Option<string> {
    if prefix <= s then Some(s[|prefix|..]) else None
  }

  /** Splits s at its first double quote: the text before it and the text after it. */
  function SplitAtQuote(s: string): Option<(string, string)>
    decreases |s|
  {
    if |s| == 0 then None
    else if s[0] == '"' then Some(([], s[1..]))
    else match SplitAtQuote(s[1..])
      case None => None
      case Some(p) => Some(([s[0]] + p.0, p.1))
  }

  /** Reads a label value that ends at the next double quote, then expects `after` to follow
      that quote. */
  function TakeLabel(s: string, after: string): Option<(string, string)> {
    match SplitAtQuote(s)
    case None => None
    case Some(p) =>
      match StripPrefix(after, "\"" + p.1)
      case None => None
      case Some(tail) => Some((p.0, tail))
  }

  function ParseMetricLine(line: string): Option<MetricRecord> {
    match StripPrefix(LinePrefix, line)
    case None => None
    case Some(r0) =>
      match TakeLabel(r0, GroupLabel)
      case None => None
      case Some(ns) =>
        match TakeLabel(ns.1, TopicLabel)
        case None => None
        case Some(g) =>
          match TakeLabel(g.1, ValueSeparator)
          case None => None
          case Some(t) =>
            match ParseDecimal(t.1)
            case None => None
            case Some(lag) => Some(MetricRecord(ns.0, g.0, t.0, lag))
  }

  lemma StripPrefixOf(prefix: string, s: string)
    ensures StripPrefix(prefix, prefix + s) == Some(s)
  {
    assert prefix <= prefix + s;
    assert (prefix + s)[|prefix|..] == s;
  }

  lemma {:induction false} SplitAtQuoteOf(a: string, b: string)
    requires '"' !in a
    ensures SplitAtQuote(a + "\"" + b) == Some((a, b))
    decreases |a|
  {
    var s := a + "\"" + b;
    if |a| == 0 {
      assert s == "\"" + b;
      assert s[1..] == b;
    } else {
      assert s[1..] == a[1..] + "\"" + b;
      SplitAtQuoteOf(a[1..], b);
      assert [s[0]] + a[1..] == a;
    }
  }

  lemma TakeLabelOf(v: string, marker: string, rest: string)
    requires '"' !in v
    requires |marker| > 0 && marker[0] == '"'
    ensures TakeLabel(v + marker + rest, marker) == Some((v, rest))
  {
    var tail := marker[1..] + rest;
    assert v + marker + rest == v + "\"" + tail;
    SplitAtQuoteOf(v, tail);
    assert "\"" + tail == marker + rest;
    StripPrefixOf(marker, rest);
  }

  /** A metric line carries exactly the namespace, group, topic and lag it was made from,
      provided no label value contains a double quote (Kafka topic names cannot). */
  lemma MetricLineRoundTrip(namespace: string, group: string, topic: string, lag: int64)
    requires '"' !in namespace && '"' !in group && '"' !in topic
    ensures ParseMetricLine(MetricLine(namespace, group, topic, lag))
         == Some(MetricRecord(namespace, group, topic, lag))
  {
    var number := DecimalString(lag);
    var r2 := topic + ValueSeparator + number;
    var r1 := group + TopicLabel + r2;
    var r0 := namespace + GroupLabel + r1;
    assert MetricLine(namespace, group, topic, lag) == LinePrefix + r0;
    StripPrefixOf(LinePrefix, r0);
    TakeLabelOf(namespace, GroupLabel, r1);
    TakeLabelOf(group, TopicLabel, r2);
    TakeLabelOf(topic, ValueSeparator, number);
    DecimalRoundTrip(lag);
  }
}
