# statsd client, modelled in Dafny

A model of the Go statsd client in `statsd/main.go`. The client formats metric observations
as statsd wire lines and hands them to a background sender through a bounded channel. The model
has two halves.

- **The wire line** (modules `Decimal`, `RateFormat`, `Text`, `Wire`; pure functions and lemmas).
  `Inc`, `Dec`, `Guage` and `Timing` render their int64 value with `%d` and append `|c`, `|g` or
  `|ms`. `submit` then samples the line, appends `|@<rate>` (the rate printed with `%f`) to a
  sampled line, puts `<prefix>.` in front of the stat when the prefix is not empty, and joins
  `<name>:<value>`. `%d` and `%f` are implemented as real functions, each with a reader and a
  round-trip lemma. Reading `%d` text gives back the integer. Reading `%f` text of a rate >= 0
  gives back the rate rounded to millionths, as a count of millionths (`Micros`), not the rate itself. `Wire.Decode` takes a whole line apart: it cuts the
  line at the first ':', the rest at the first '|', what follows the type at the next '|', and
  takes the rate text after the '@'. The decoding lemmas show that, when neither the prefix nor
  the stat contains ':', the line holds exactly the name, value, type and rate it was built from.
  Go accepts a ':' in either; such a line is cut at the wrong ':' and does not read back.
- **The client state** (module `Statsd`, class `Client`). Its fields are:
  - the prefix;
  - the `data` channel, as a FIFO `queue` of capacity 100;
  - the log `written` of the lines the sender took from the channel and passed to `send`, in
    that order, whether or not the write succeeded;
  - whether the sender goroutine is `running`.

  A ghost history `submitted` holds every line ever enqueued. The invariant
  `written + queue == submitted` is the in-order delivery guarantee. Each call of `SenderStep`
  is one pass of the sender's `for`/`select` loop. `Close` is the quit handshake.

Randomness, floats and the network become parameters:
- the sampling draw `rand.Float32()` becomes a parameter `draw` in [0, 1);
- a float32 rate is the exact real number it denotes, so `<` compares the same way;
- the outcome of each write is a flag in the sender event;
- the connection's `Close` error is passed to `Client.Close`, which returns it.

Behaviour of the code worth noting:
- `submit` returns nil on every path, including a sampled-out line (statsd/main.go:83, :92).
- A rate of 1 or more is never annotated (statsd/main.go:79).
- A rate of 0 or less always drops the line, because the draw is never below it.
- The sender returns on quit without draining the channel (statsd/main.go:119-120).
- A second `Close` panics, sending on `quit` after the `close(s.quit)` of the first
  (statsd/main.go:28-29); the model makes it a precondition violation.

## Model

| member | source | states |
|---|---|---|
| Decimal.NatDigits | statsd/main.go:41 | `%d` of a non-negative value is a non-empty string of decimal digits, starting with '0' only for zero |
| Decimal.FormatInt | statsd/main.go:41 | `%d` output is non-empty; it starts with '-' exactly when the value is negative; every other character is a digit |
| Decimal.NatDigitsRoundTrip | statsd/main.go:41 | the digits `%d` prints for a natural number denote that number |
| Decimal.FormatIntRoundTrip | statsd/main.go:41 | the text `%d` prints reads back as the same integer |
| Decimal.FormatIntInjective | statsd/main.go:41 | two different integers never render alike |
| Decimal.FormatIntCanonical | statsd/main.go:41 | no redundant zero: only 0 renders with a leading '0', and no negative value renders as "-0..." |
| RateFormat.RoundHalfEven | statsd/main.go:81 | the result is an integer nearest to x; on an exact tie it is the even one (Go's rounding under `%f`) |
| RateFormat.Micros | statsd/main.go:81 | the number of millionths `%f` prints is within one half of rate × 10^6 |
| RateFormat.PaddedDigits | statsd/main.go:81 | the fraction part has exactly six digits |
| RateFormat.RenderRateRoundTrip | statsd/main.go:81 | the rendered rate has the shape `<digits>.<six digits>` and reads back as the rate rounded to the nearest millionth |
| RateFormat.RenderRateBelowOne | statsd/main.go:79-81 | a rate below 1 renders as "0.dddddd", or as "1.000000" when it rounds up |
| RateFormat.RenderHalf | statsd/main.go:81 | `%f` of 0.5 is "0.500000" |
| Wire.TypeTag | statsd/main.go:40-69 | the type tag `c`, `g` or `ms` of the three operations; it contains no '\|' and reads back as its kind |
| Wire.ValueText | statsd/main.go:40-69 | the `Sprintf("%d\|c")`, `"%d\|g"`, `"%d\|ms"` value part: `%d` text, '\|', type tag; its leading part reads back as the value and its tail as the kind (the full round trip is DecodeValueRoundTrip) |
| Wire.PrefixedName | statsd/main.go:87-89 | the bare stat under an empty prefix, otherwise prefix, '.', stat; no ':' appears when prefix and stat have none |
| Wire.SubmitLine | statsd/main.go:78-92 | submit's line: present exactly when rate >= 1 or draw < rate (its text is stated by SubmitLineShape and read back by MetricLineDecodes) |
| Wire.MetricLine | statsd/main.go:40-69 | the line Inc, Guage or Timing hands on: present exactly when rate >= 1 or draw < rate (its decoding is MetricLineDecodes) |
| RateFormat.RenderRate | statsd/main.go:81 | the `%f` of the rate has the shape `<digits>.<six digits>` (its value is RenderRateRoundTrip) |
| Wire.Negate64 | statsd/main.go:50 | int64 negation is -v for every value but the smallest, which negates to itself (two's-complement wrap) |
| Wire.DecodeTypeRoundTrip | statsd/main.go:40-69 | the type tag `c`, `g` or `ms`, with or without the `|@<rate>` annotation, reads back as the metric type and rate text |
| Wire.DecodeValueRoundTrip | statsd/main.go:40-69 | a value part is the `%d` rendering, then '\|', then the type tag; it reads back as the value, type and rate text |
| Wire.DecodeLine | statsd/main.go:91 | a line `<name>:<value part>` whose name contains no ':' reads back as exactly that name, int64 value, type and rate text |
| Wire.SubmitLineShape | statsd/main.go:78-92 | submit keeps a line exactly when rate >= 1 or draw < rate; the kept line is the prefixed name, ':', the value text, then the rate annotation when rate < 1 |
| Wire.MetricLineDecodes | statsd/main.go:78-93 | for a prefix and stat that contain no ':' (Go accepts a ':' in either, and `Decode`, which cuts at the first ':', then reads a different name), the line of Inc, Guage and Timing exists exactly when rate >= 1 or draw < rate. When it exists it decodes to: the name `prefix.stat` (or `stat` under an empty prefix); the value and type; the `%f` rate exactly when rate < 1 |
| Wire.FullRateUnannotated | statsd/main.go:79-91 | for a prefix and stat that contain no ':', at rate >= 1 the line is always produced, and it decodes with no sample rate |
| Wire.UnsampledLine | statsd/main.go:87-91 | at rate >= 1 the line is exactly the prefixed name, ':' and the value text |
| Wire.SampledLine | statsd/main.go:79-84 | below rate 1, a draw not below the rate drops the line, and a rate <= 0 always drops it. A draw below the rate keeps it, with "\|@" and the rendered rate appended to the value before the name is joined |
| Wire.DecValueText | statsd/main.go:49-51 | Dec's counter value reads back as -v for every int64 but the smallest; for the smallest, Dec sends the same text as Inc |
| Wire.PlainCounterExample | statsd/main.go:40-43 | Inc("foo", 5, 1) with no prefix enqueues "foo:5\|c" |
| Wire.PrefixedCounterExample | statsd/main.go:87-91 | under the prefix "app" the same call enqueues "app.foo:5\|c" |
| Wire.SampledCounterExample | statsd/main.go:80-81 | at rate 0.5, with a draw below it, the line is "app.foo:5\|c\|@0.500000" |
| Statsd.Client.constructor | statsd/main.go:126-137 | a new client holds the given prefix, an empty channel, an empty send log and a running sender |
| Statsd.Client.Submit | statsd/main.go:78-93 | always returns nil. It appends the kept line once, at the back of the queue, or leaves the queue as it was when the line is dropped. The queue never exceeds 100, and the send needs room only when the line is kept. Prefix, send log and sender state do not change |
| Statsd.Client.Inc | statsd/main.go:40-43 | enqueues the counter line of the value, as submit does |
| Statsd.Client.Dec | statsd/main.go:49-51 | has exactly Inc's effect and result for the int64 negation of the value |
| Statsd.Client.Guage | statsd/main.go:57-60 | enqueues the gauge line of the value, as submit does |
| Statsd.Client.Timing | statsd/main.go:66-69 | enqueues the timing line of the delta, as submit does |
| Statsd.Client.SetPrefix | statsd/main.go:72-74 | replaces the prefix and changes nothing else, so later lines use the new prefix |
| Statsd.Client.SenderStep | statsd/main.go:110-121 | a received line is the front one: it leaves the queue and is appended to the send log. A failed write is only reported, and the sender keeps running. Quit stops the sender without writing. A stopped sender changes nothing |
| Statsd.Client.Close | statsd/main.go:27-34 | the quit handshake stops the running sender, leaves queued lines unsent, and returns the connection's close error |
| Statsd.OrderedDelivery | statsd/main.go:108-124 | for a fresh client with an empty prefix, up to 100 full-rate counters submitted before any sender step and then drained with no write error are passed to `send` in submission order, each exactly once. The general, interleaved form is `Client.Valid`'s `written + queue == submitted`, which every Client method keeps |
| Statsd.NothingWrittenAfterClose | statsd/main.go:119-120 | for a fresh client with an empty prefix and up to 100 full-rate counters queued, after Close no sequence of sender events sends anything, and the queued lines stay pending. The general form is `Client.SenderStep`'s clause that a stopped sender changes nothing |

## Left out

- `Dial` and `DialTimeout` (statsd/main.go:144-168): they only establish the UDP connection. Address resolution and timeouts are network I/O.
- The `bufio` write buffer, `send`'s Write/Flush (statsd/main.go:95-105) and the Flush in `Close` (statsd/main.go:30): library I/O. A write is modelled as an append to the send log, with an error flag. The sticky error of a `bufio.Writer` is not modelled: in Go, once one Write or Flush fails, every later one returns that error, so no later line reaches the connection; the model lets a successful write follow a failed one.
- Goroutine scheduling, the random choice `select` makes when both channels are ready, and the blocking handshake on the unbuffered `quit` channel: concurrency. The scheduler's choices are explicit calls of `SenderStep` and `Close`. The blocking send on a full channel becomes the precondition that there is room.
- `rand.Float32` and float32 arithmetic. The draw is a parameter in [0, 1), and a rate is the real number its float32 denotes. When all rates are float32 values, `RenderRate` agrees with Go's `%f`. A NaN rate is not modelled: in Go `rate < 1` is false for NaN (statsd/main.go:79), so such a line is always sent with no `|@` annotation.
- The `fmt.Println` diagnostic for a failed write (statsd/main.go:117): I/O. `SenderStep` returns whether it would be printed.
- `close(s.quit)`, setting `buf` to nil, and the panic of a second `Close` (statsd/main.go:28-31). `Close` requires a running sender.
- The connection's own `Close` (statsd/main.go:32): a foreign call. Its error is a parameter that `Client.Close` returns.
- The data race between `SetPrefix` and concurrent submissions: the model is sequential.
