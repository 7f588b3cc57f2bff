/** The statsd Client: its prefix, the buffered `data` channel that submissions go into (a FIFO
    of capacity 100), the sender goroutine that takes lines off it in order and writes them to
    the connection, and the `quit` handshake that stops that sender. The scheduler's choices
    become explicit calls: each SenderStep is one pass of the sender's `for`/`select` loop. */
module Statsd {
  import opened Options
  import opened Wire
  import opened Decimal

  /** The buffer size of the `data` channel. */
  const Capacity: nat := 100

  /** What the sender's `select` receives: a line from `data`, whose write to the connection
      fails or not, or the value sent on `quit`. */
  datatype SenderEvent = LineReady(writeError: bool) | QuitReady

  /** The lines one submission adds to the queue: one, or none when sampling dropped it. */
  function Enqueued(line: Option<string>): seq<string> {
    match line
    case None => []
    case Some(l) => [l]
  }

  class Client {
    /** Prepended, with a '.', to every stat name while it is not empty. */
    var prefix: string
    /** The lines waiting in the `data` channel, oldest first. */
    var queue: seq<string>
    /** The lines the sender has taken from the channel and passed to `send`, in that order,
        whether or not the write succeeded. */
    var written: seq<string>
    /** The sender goroutine has not yet received from `quit`. */
    var running: bool
    /** Every line ever put into the `data` channel, in order. */
    ghost var submitted: seq<string>

    /** The channel never holds more than its capacity, and the sender has sent exactly the
        oldest submitted lines, in submission order, with the rest still queued. */
    ghost predicate Valid()
      reads this
    {
      |queue| <= Capacity && written + queue == submitted
    }

    /** newClient followed by StartSender: an empty channel, a running sender. */
    constructor (prefix: string)
      ensures Valid()
      ensures this.prefix == prefix && queue == [] && written == [] && running
      ensures submitted == []
    {
      this.prefix := prefix;
      queue := [];
      written := [];
      running := true;
      submitted := [];
    }

    /** submit: sample, then prefix the stat and put "<name>:<value>" at the back of the
        channel. The send blocks while the channel is full; a caller may only go on once there is
        room, which the second precondition states. A dropped line touches nothing. Always nil. */
    method Submit(stat: string, value: string, rate: real, draw: real) returns (err: Option<string>)
      requires Valid() && 0.0 <= draw < 1.0
      requires SubmitLine(prefix, stat, value, rate, draw).Some? ==> |queue| < Capacity
      modifies this`queue, this`submitted
      ensures Valid() && err == None
      ensures queue == old(queue) + Enqueued(SubmitLine(prefix, stat, value, rate, draw))
      ensures submitted == old(submitted) + Enqueued(SubmitLine(prefix, stat, value, rate, draw))
    {
      var line := SubmitLine(prefix, stat, value, rate, draw);
      if line.Some? {
        queue := queue + [line.value];
        submitted := submitted + [line.value];
      }
      err := None;
    }

    /** Inc: a counter line, "%d|c". */
    method Inc(stat: string, value: Int64, rate: real, draw: real) returns (err: Option<string>)
      requires Valid() && 0.0 <= draw < 1.0
      requires MetricLine(prefix, stat, Counter, value, rate, draw).Some? ==> |queue| < Capacity
      modifies this`queue, this`submitted
      ensures Valid() && err == None
      ensures queue == old(queue) + Enqueued(MetricLine(prefix, stat, Counter, value, rate, draw))
      ensures submitted == old(submitted) + Enqueued(MetricLine(prefix, stat, Counter, value, rate, draw))
    {
      err := Submit(stat, ValueText(Counter, value), rate, draw);
    }

    /** Dec: exactly Inc of the int64 negation of the value. */
    method Dec(stat: string, value: Int64, rate: real, draw: real) returns (err: Option<string>)
      requires Valid() && 0.0 <= draw < 1.0
      requires MetricLine(prefix, stat, Counter, Negate64(value), rate, draw).Some? ==> |queue| < Capacity
      modifies this`queue, this`submitted
      ensures Valid() && err == None
      ensures queue == old(queue) + Enqueued(MetricLine(prefix, stat, Counter, Negate64(value), rate, draw))
      ensures submitted == old(submitted) + Enqueued(MetricLine(prefix, stat, Counter, Negate64(value), rate, draw))
    {
      err := Inc(stat, Negate64(value), rate, draw);
    }

    /** Guage: a gauge line, "%d|g". */
    method Guage(stat: string, value: Int64, rate: real, draw: real) returns (err: Option<string>)
      requires Valid() && 0.0 <= draw < 1.0
      requires MetricLine(prefix, stat, Gauge, value, rate, draw).Some? ==> |queue| < Capacity
      modifies this`queue, this`submitted
      ensures Valid() && err == None
      ensures queue == old(queue) + Enqueued(MetricLine(prefix, stat, Gauge, value, rate, draw))
      ensures submitted == old(submitted) + Enqueued(MetricLine(prefix, stat, Gauge, value, rate, draw))
    {
      err := Submit(stat, ValueText(Gauge, value), rate, draw);
    }

    /** Timing: a timing line, "%d|ms". */
    method Timing(stat: string, delta: Int64, rate: real, draw: real) returns (err: Option<string>)
      requires Valid() && 0.0 <= draw < 1.0
      requires MetricLine(prefix, stat, Wire.Timing, delta, rate, draw).Some? ==> |queue| < Capacity
      modifies this`queue, this`submitted
      ensures Valid() && err == None
      ensures queue == old(queue) + Enqueued(MetricLine(prefix, stat, Wire.Timing, delta, rate, draw))
      ensures submitted == old(submitted) + Enqueued(MetricLine(prefix, stat, Wire.Timing, delta, rate, draw))
    {
      err := Submit(stat, ValueText(Wire.Timing, delta), rate, draw);
    }

    /** SetPrefix: replaces the prefix and nothing else. */
    method SetPrefix(prefix: string)
      requires Valid()
      modifies this`prefix
      ensures Valid() && this.prefix == prefix
    {
      this.prefix := prefix;
    }

    /** One pass of the sender's loop. A line received from the channel is the front one; it is
        passed to `send` (appended to the log) whether or not the write fails, a failure is only
        reported, and the sender keeps running. Receiving from `quit` stops it. Once stopped, the
        goroutine has returned, so nothing further happens. */
    method SenderStep(ev: SenderEvent) returns (reported: bool)
      requires Valid()
      requires running && ev.LineReady? ==> |queue| > 0
      modifies this`queue, this`written, this`running
      ensures Valid()
      ensures !old(running) ==> queue == old(queue) && written == old(written) && !running && !reported
      ensures old(running) && ev.LineReady? ==>
        queue == old(queue)[1..] && written == old(written) + [old(queue)[0]] &&
        running && reported == ev.writeError
      ensures old(running) && ev.QuitReady? ==>
        queue == old(queue) && written == old(written) && !running && !reported
    {
      reported := false;
      if !running {
        return;
      }
      match ev
      case LineReady(writeError) =>
        var line := queue[0];
        queue := queue[1..];
        written := written + [line];
        assert written + queue == old(written) + old(queue);
        reported := writeError;
      case QuitReady =>
        running := false;
    }

    /** Close: the send on the unbuffered `quit` channel completes when the running sender
        receives it, so the sender stops; lines still queued are not written. The error of closing
        the connection, a call outside this model, is passed in and returned. */
    method Close(closeError: Option<string>) returns (err: Option<string>)
      requires Valid() && running
      modifies this`queue, this`written, this`running
      ensures Valid() && !running && err == closeError
      ensures queue == old(queue) && written == old(written)
    {
      var _ := SenderStep(QuitReady);
      err := closeError;
    }
  }

  /** Lines submitted one after another, at full rate and with no prefix, are passed to `send`
      by the sender in the same order, each exactly once. */
  method OrderedDelivery(stats: seq<string>, values: seq<Int64>) returns (sent: seq<string>)
    requires |stats| == |values| <= Capacity
    ensures |sent| == |stats|
    ensures forall i :: 0 <= i < |sent| ==> sent[i] == stats[i] + ":" + FormatInt(values[i]) + "|c"
  {
    var c := new Client("");
    SubmitCounters(c, stats, values);
    DrainAll(c);
    sent := c.written;
  }

  /** A caller incrementing each stat in turn, at full rate, into a client without a prefix. */
  method SubmitCounters(c: Client, stats: seq<string>, values: seq<Int64>)
    requires c.Valid() && c.prefix == "" && c.queue == []
    requires |stats| == |values| <= Capacity
    modifies c`queue, c`submitted
    ensures c.Valid() && |c.queue| == |stats|
    ensures forall j :: 0 <= j < |stats| ==> c.queue[j] == stats[j] + ":" + FormatInt(values[j]) + "|c"
  {
    ghost var lines := seq(|stats|, j requires 0 <= j < |stats| => stats[j] + ":" + FormatInt(values[j]) + "|c");
    var i := 0;
    while i < |stats|
      invariant 0 <= i <= |stats|
      invariant c.Valid() && c.prefix == "" && c.queue == lines[..i]
    {
      IncrementAtFullRate(c, stats[i], values[i]);
      assert lines[..i + 1] == lines[..i] + [lines[i]];
      i := i + 1;
    }
    assert lines[..i] == lines;
  }

  /** One Inc at full rate into a client without a prefix. */
  method IncrementAtFullRate(c: Client, stat: string, v: Int64)
    requires c.Valid() && c.prefix == "" && |c.queue| < Capacity
    modifies c`queue, c`submitted
    ensures c.Valid() && c.queue == old(c.queue) + [stat + ":" + FormatInt(v) + "|c"]
  {
    UnprefixedFullRateCounter(stat, v);
    assert stat + ":" + ValueText(Counter, v) == stat + ":" + FormatInt(v) + "|c";
    var _ := c.Inc(stat, v, 1.0, 0.0);
  }

  /** The running sender taking every queued line, none of whose writes fails. */
  method DrainAll(c: Client)
    requires c.Valid() && c.running
    modifies c`queue, c`written, c`running
    ensures c.Valid() && c.running
    ensures c.queue == [] && c.written == old(c.written) + old(c.queue)
  {
    ghost var lines := c.queue;
    ghost var done := c.written;
    while c.queue != []
      invariant c.Valid() && c.running
      invariant done + lines == c.written + c.queue
      decreases |c.queue|
    {
      var _ := c.SenderStep(LineReady(false));
    }
  }

  /** Once Close has returned, no sequence of sender steps sends anything: lines still in the
      channel at shutdown stay unsent. */
  method NothingWrittenAfterClose(stats: seq<string>, values: seq<Int64>, events: seq<SenderEvent>)
    returns (sent: seq<string>, pending: nat)
    requires |stats| == |values| <= Capacity
    ensures sent == [] && pending == |stats|
  {
    var c := new Client("");
    var i := 0;
    while i < |stats|
      invariant 0 <= i <= |stats|
      invariant c.Valid() && c.running && c.written == [] && |c.queue| == i
    {
      UnsampledLine(c.prefix, stats[i], ValueText(Counter, values[i]), 1.0, 0.0);
      var _ := c.Inc(stats[i], values[i], 1.0, 0.0);
      i := i + 1;
    }
    var _ := c.Close(None);
    i := 0;
    while i < |events|
      invariant 0 <= i <= |events|
      invariant c.Valid() && !c.running && c.written == [] && |c.queue| == |stats|
    {
      var _ := c.SenderStep(events[i]);
      i := i + 1;
    }
    sent, pending := c.written, |c.queue|;
  }
}
