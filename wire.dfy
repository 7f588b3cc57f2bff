/** The statsd wire line the client builds: the metric's value text ("%d|c", "%d|g" or
    "%d|ms"), the sampling decision and its "|@<rate>" annotation, the prefixed stat name, and
    "<name>:<value>". Also the reading of such a line back into its parts, which shows that the
    line carries exactly what was submitted. */
module Wire {
  import opened Options
  import opened Text
  import opened Decimal
  import opened RateFormat

  const MinInt64: int := -0x8000_0000_0000_0000
  const MaxInt64: int := 0x7fff_ffff_ffff_ffff
  const TwoTo64: int := 0x1_0000_0000_0000_0000

  /** Go's int64. */
  type Int64 = x: int | MinInt64 <= x <= MaxInt64

  /** Go's unary minus on an int64: two's-complement negation, which wraps only on the
      smallest value. */
  function Negate64(v: Int64): (r: Int64)
    ensures v != MinInt64 ==> r == -v
    ensures v == MinInt64 ==> r == MinInt64
  {
    var w := (-(v as int) - MinInt64) % TwoTo64;
    assert 0 <= w < TwoTo64;
    w + MinInt64
  }

  /** The three statsd metric types the client emits. */
  datatype Kind = Counter | Gauge | Timing

  /** The type tag of a metric; it contains no '|' and reads back as its kind. */
  function TypeTag(k: Kind): (t: string)
    ensures '|' !in t && ParseKind(t) == Some(k)
  {
    match k
    case Counter => "c"
    case Gauge => "g"
    case Timing => "ms"
  }

  function ParseKind(t: string): Option<Kind> {
    if t == "c" then Some(Counter)
    else if t == "g" then Some(Gauge)
    else if t == "ms" then Some(Timing)
    else None
  }

  /** The value text a metric operation hands to submit: fmt.Sprintf("%d|c", v) for Inc,
      "%d|g" for Guage, "%d|ms" for Timing. */
  function ValueText(kind: Kind, v: Int64): (s: string)
    ensures |s| > |TypeTag(kind)| + 1
    ensures ParseInt(s[..|s| - |TypeTag(kind)| - 1]) == Some(v)
    ensures s[|s| - |TypeTag(kind)| - 1] == '|'
    ensures ParseKind(s[|s| - |TypeTag(kind)|..]) == Some(kind)
  {
    var digits, tag := FormatInt(v), TypeTag(kind);
    FormatIntRoundTrip(v);
    var s := digits + "|" + tag;
    assert |s| - |tag| - 1 == |digits|;
    assert s[..|digits|] == digits;
    assert s[|digits|] == '|';
    assert s[|digits| + 1..] == tag;
    s
  }

  /** The stat name with the client's prefix and a '.' in front, unless the prefix is empty.
      A name built from a prefix and a stat without ':' has no ':' either. */
  function PrefixedName(prefix: string, stat: string): (name: string)
    ensures prefix == "" ==> name == stat
    ensures prefix != "" ==>
      |name| == |prefix| + 1 + |stat| && name[..|prefix|] == prefix &&
      name[|prefix|] == '.' && name[|prefix| + 1..] == stat
    ensures ':' !in prefix && ':' !in stat ==> ':' !in name
  {
    if prefix != "" then
      var name := prefix + "." + stat;
      assert name[..|prefix|] == prefix && name[|prefix| + 1..] == stat;
      name
    else stat
  }

  /** The line submit enqueues for stat and value text `value`, or None when sampling drops it.
      `draw` stands for the rand.Float32() result, which lies in [0, 1). */
  function SubmitLine(prefix: string, stat: string, value: string, rate: real, draw: real): (r: Option<string>)
    requires 0.0 <= draw < 1.0
    ensures r.Some? <==> rate >= 1.0 || draw < rate
  {
    if rate < 1.0 && !(draw < rate) then None
    else
      var sampled := if rate < 1.0 then value + "|@" + RenderRate(rate) else value;
      Some(PrefixedName(prefix, stat) + ":" + sampled)
  }

  /** The line Inc, Guage or Timing enqueues for an int64 value. */
  function MetricLine(prefix: string, stat: string, kind: Kind, v: Int64, rate: real, draw: real): (r: Option<string>)
    requires 0.0 <= draw < 1.0
    ensures r.Some? <==> rate >= 1.0 || draw < rate
  {
    SubmitLine(prefix, stat, ValueText(kind, v), rate, draw)
  }

  /** A wire line taken apart: the name before ':', the integer value, the type and, when the
      line was sampled, the text after "|@". */
  datatype Metric = Metric(name: string, value: int, kind: Kind, rate: Option<string>)

  /** Reads a line "<name>:<value>|<type>[|@<rate>]": it cuts the line at the first ':', the
      rest at the first '|', and what follows the type at the next '|', taking the rate text
      after the '@'. */
  function Decode(line: string): Option<Metric> {
    match SplitOnce(line, ':')
    case None => None
    case Some((name, rest)) =>
      match DecodeValue(rest)
      case None => None
      case Some((v, k, rate)) => Some(Metric(name, v, k, rate))
  }

  /** Reads "<value>|<type>[|@<rate>]". */
  function DecodeValue(rest: string): Option<(int, Kind, Option<string>)> {
    match SplitOnce(rest, '|')
    case None => None
    case Some((digits, tail)) =>
      match ParseInt(digits)
      case None => None
      case Some(v) =>
        match DecodeType(tail)
        case None => None
        case Some((k, rate)) => Some((v, k, rate))
  }

  /** Reads "<type>[|@<rate>]". */
  function DecodeType(tail: string): Option<(Kind, Option<string>)> {
    match SplitOnce(tail, '|')
    case None =>
      (match ParseKind(tail)
       case None => None
       case Some(k) => Some((k, None)))
    case Some((tag, sample)) =>
      if |sample| > 0 && sample[0] == '@' then
        match ParseKind(tag)
        case None => None
        case Some(k) => Some((k, Some(sample[1..])))
      else None
  }

  /** The text after the value: "|@<rate>" on a sampled line, nothing otherwise. */
  function Annotation(rate: Option<string>): string {
    match rate
    case None => ""
    case Some(r) => "|@" + r
  }

  lemma DecodeTypeRoundTrip(kind: Kind, rate: Option<string>)
    ensures DecodeType(TypeTag(kind) + Annotation(rate)) == Some((kind, rate))
  {
    var tag := TypeTag(kind);
    match rate
    case None =>
      assert tag + Annotation(rate) == tag;
    case Some(r) =>
      assert tag + Annotation(rate) == tag + ['|'] + ("@" + r);
      SplitOnceAt(tag, '|', "@" + r);
      assert ("@" + r)[1..] == r;
  }

  /** `%d` text never contains the '|' separator. */
  lemma NoSeparatorInDigits(v: int)
    ensures '|' !in FormatInt(v)
  {
    var digits := FormatInt(v);
    forall i | 0 <= i < |digits| ensures digits[i] != '|' {
      assert IsDigit(digits[i]) || digits[i] == '-';
    }
  }

  lemma DecodeValueRoundTrip(kind: Kind, v: Int64, rate: Option<string>)
    ensures DecodeValue(ValueText(kind, v) + Annotation(rate)) == Some((v, kind, rate))
  {
    var digits, tag := FormatInt(v), TypeTag(kind);
    var tail := tag + Annotation(rate);
    assert ValueText(kind, v) == digits + "|" + tag;
    assert ValueText(kind, v) + Annotation(rate) == digits + ['|'] + tail;
    NoSeparatorInDigits(v);
    SplitOnceAt(digits, '|', tail);
    FormatIntRoundTrip(v);
    DecodeTypeRoundTrip(kind, rate);
  }

  /** Any line of the client's shape whose name has no ':' reads back as the name, integer,
      type and rate text it was built from. */
  lemma DecodeLine(name: string, kind: Kind, v: Int64, rate: Option<string>)
    requires ':' !in name
    ensures Decode(name + ":" + ValueText(kind, v) + Annotation(rate)) == Some(Metric(name, v, kind, rate))
  {
    var rest := ValueText(kind, v) + Annotation(rate);
    assert name + ":" + ValueText(kind, v) + Annotation(rate) == name + [':'] + rest;
    SplitOnceAt(name, ':', rest);
    DecodeValueRoundTrip(kind, v, rate);
  }

  /** What Decode reads from the line Inc, Guage or Timing enqueues: the line exists
      exactly when the rate is at least 1 or the draw falls below it; its name is the stat,
      prefixed with "<prefix>." when the prefix is not empty; its value is v with the kind's
      type; a "|@" annotation, carrying the `%f` rendering of the rate, is present exactly when
      the rate is below 1. */
  lemma MetricLineDecodes(prefix: string, stat: string, kind: Kind, v: Int64, rate: real, draw: real)
    requires 0.0 <= draw < 1.0
    requires ':' !in prefix && ':' !in stat
    ensures MetricLine(prefix, stat, kind, v, rate, draw).Some? <==> rate >= 1.0 || draw < rate
    ensures MetricLine(prefix, stat, kind, v, rate, draw).Some? ==>
      Decode(MetricLine(prefix, stat, kind, v, rate, draw).value)
        == Some(Metric(if prefix != "" then prefix + "." + stat else stat, v, kind,
                       if rate < 1.0 then Some(RenderRate(rate)) else None))
  {
    var name := PrefixedName(prefix, stat);
    SubmitLineShape(prefix, stat, ValueText(kind, v), rate, draw);
    if rate >= 1.0 || draw < rate {
      DecodeLine(name, kind, v, if rate < 1.0 then Some(RenderRate(rate)) else None);
    }
  }

  /** At a rate of 1 or more the line is always produced and carries no sample rate. */
  lemma FullRateUnannotated(prefix: string, stat: string, kind: Kind, v: Int64, rate: real, draw: real)
    requires 0.0 <= draw < 1.0 && rate >= 1.0
    requires ':' !in prefix && ':' !in stat
    ensures MetricLine(prefix, stat, kind, v, rate, draw).Some?
    ensures Decode(MetricLine(prefix, stat, kind, v, rate, draw).value).Some?
    ensures Decode(MetricLine(prefix, stat, kind, v, rate, draw).value).value.rate == None
  {
    MetricLineDecodes(prefix, stat, kind, v, rate, draw);
  }

  /** At a rate of 1 or more the line is exactly the prefixed name, ':' and the value text. */
  lemma UnsampledLine(prefix: string, stat: string, value: string, rate: real, draw: real)
    requires 0.0 <= draw < 1.0 && rate >= 1.0
    ensures SubmitLine(prefix, stat, value, rate, draw) == Some(PrefixedName(prefix, stat) + ":" + value)
  {
  }

  /** Below rate 1, a draw at or above the rate drops the line; a draw below it keeps the line
      with "|@" and the rendered rate appended to the value text, before the name is joined. */
  lemma SampledLine(prefix: string, stat: string, value: string, rate: real, draw: real)
    requires 0.0 <= draw < 1.0 && rate < 1.0
    ensures !(draw < rate) ==> SubmitLine(prefix, stat, value, rate, draw) == None
    ensures rate <= 0.0 ==> SubmitLine(prefix, stat, value, rate, draw) == None
    ensures draw < rate ==>
      rate > 0.0 &&
      SubmitLine(prefix, stat, value, rate, draw) == Some(PrefixedName(prefix, stat) + ":" + (value + "|@" + RenderRate(rate)))
  {
  }

  /** The line submit builds is the prefixed name, ':', the value text and, below rate 1, the
      rate annotation; it exists exactly when the rate is at least 1 or the draw is below it. */
  lemma SubmitLineShape(prefix: string, stat: string, value: string, rate: real, draw: real)
    requires 0.0 <= draw < 1.0
    ensures SubmitLine(prefix, stat, value, rate, draw).Some? <==> rate >= 1.0 || draw < rate
    ensures rate >= 1.0 || draw < rate ==>
      rate >= 0.0 &&
      SubmitLine(prefix, stat, value, rate, draw).value
        == PrefixedName(prefix, stat) + ":" + value + Annotation(if rate < 1.0 then Some(RenderRate(rate)) else None)
  {
    var head := PrefixedName(prefix, stat) + ":";
    if rate >= 1.0 {
      UnsampledLine(prefix, stat, value, rate, draw);
      assert head + value + Annotation(None) == head + value;
    } else {
      SampledLine(prefix, stat, value, rate, draw);
      if draw < rate {
        var r := RenderRate(rate);
        assert head + (value + "|@" + r) == head + value + Annotation(Some(r));
      }
    }
  }

  /** Dec sends the negated value: for every int64 but the smallest, the counter text of
      Negate64(v) reads back as -v; the smallest one negates to itself, so Dec and Inc of it
      send the same text. */
  lemma DecValueText(v: Int64)
    ensures v != MinInt64 ==> ParseInt(FormatInt(Negate64(v))) == Some(-v)
    ensures v == MinInt64 ==> ValueText(Counter, Negate64(v)) == ValueText(Counter, v)
  {
    FormatIntRoundTrip(Negate64(v));
  }

  /** A counter at full rate without a prefix: "foo:5|c". */
  lemma PlainCounterExample()
    ensures MetricLine("", "foo", Counter, 5, 1.0, 0.0) == Some("foo:5|c")
  {
    assert DigitChar(5) == '5';
    assert ValueText(Counter, 5) == "5|c";
    assert SubmitLine("", "foo", "5|c", 1.0, 0.0) == Some("foo" + ":" + "5|c");
    assert "foo" + ":" + "5|c" == "foo:5|c";
  }

  /** The same counter under the prefix "app": "app.foo:5|c". */
  lemma PrefixedCounterExample()
    ensures MetricLine("app", "foo", Counter, 5, 1.0, 0.0) == Some("app.foo:5|c")
  {
    assert DigitChar(5) == '5';
    assert ValueText(Counter, 5) == "5|c";
    assert PrefixedName("app", "foo") == "app.foo";
    assert SubmitLine("app", "foo", "5|c", 1.0, 0.0) == Some("app.foo" + ":" + "5|c");
    assert "app.foo" + ":" + "5|c" == "app.foo:5|c";
  }

  /** The same counter sampled at rate 0.5 and kept: "app.foo:5|c|@0.500000". */
  lemma SampledCounterExample()
    ensures MetricLine("app", "foo", Counter, 5, 0.5, 0.25) == Some("app.foo:5|c|@0.500000")
  {
    FiveCounterText();
    RenderHalf();
    SampledLine("app", "foo", "5|c", 0.5, 0.25);
    assert PrefixedName("app", "foo") == "app.foo";
    assert "5|c" + "|@" + "0.500000" == "5|c|@0.500000";
    assert "app.foo" + ":" + "5|c|@0.500000" == "app.foo:5|c|@0.500000";
  }

  lemma FiveCounterText()
    ensures ValueText(Counter, 5) == "5|c"
  {
    assert DigitChar(5) == '5';
    assert FormatInt(5) == "5";
  }

  /** A counter at full rate under an empty prefix is the stat, ':' and the value text. */
  lemma UnprefixedFullRateCounter(stat: string, v: Int64)
    ensures MetricLine("", stat, Counter, v, 1.0, 0.0) == Some(stat + ":" + ValueText(Counter, v))
  {
    UnsampledLine("", stat, ValueText(Counter, v), 1.0, 0.0);
  }
}
