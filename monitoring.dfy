/** `MonitorResourceAPIServerRequests` of `ocp_scale_utilities/monitoring.py`:
    the Prometheus query it watches, and its two sampling loops. Prometheus is
    not modelled: what each poll would answer is a sequence of samples, `None`
    for an empty answer and `Some(v)` for a rate `v`. A sampler reads at most
    one sample per 5-second period of its timeout; the sequence ending, or
    that bound being reached, is the sampler's timeout. */
module Monitoring {
  import opened Wrappers

  /** TIMEOUT_30SEC and TIMEOUT_5MIN, in seconds. */
  const Timeout30Sec: int := 30
  const Timeout5Min: int := 300
  /** Both samplers sleep 5 seconds between polls. */
  const SleepSeconds: int := 5

  /** What the monitor is built from; `timeDurationSeconds` defaults to
      TIMEOUT_5MIN. */
  datatype Monitor = Monitor(apiGroup: string, kind: string, idleRequestsValue: real, timeDurationSeconds: int)

  function DefaultMonitor(apiGroup: string, kind: string, idleRequestsValue: real): (m: Monitor)
    ensures m.timeDurationSeconds == Timeout5Min
  {
    Monitor(apiGroup, kind, idleRequestsValue, Timeout5Min)
  }

  // ---------------------------------------------------------------------
  // The query

  /** `str.lower` on ASCII letters; every other character is kept. */
  function LowerChar(c: char): char
  {
    if 'A' <= c <= 'Z' then (c as int + 32) as char else c
  }

  function Lower(s: string): (r: string)
    ensures |r| == |s| && forall i :: 0 <= i < |s| ==> r[i] == LowerChar(s[i])
  {
    seq(|s|, i requires 0 <= i < |s| => LowerChar(s[i]))
  }

  function DigitChar(d: nat): char
    requires d < 10
  {
    "0123456789"[d]
  }

  /** `str` of a natural number: its decimal digits, most significant first. */
  function NatToString(n: nat): (r: string)
    ensures |r| > 0 && '0' <= r[0] <= '9'
    decreases n
  {
    if n < 10 then [DigitChar(n)] else NatToString(n / 10) + [DigitChar(n % 10)]
  }

  /** `str` of an integer. */
  function IntToString(n: int): string
  {
    if n < 0 then "-" + NatToString(-n) else NatToString(n)
  }

  function DigitValue(c: char): Option<nat>
  {
    if '0' <= c <= '9' then Some(c as int - '0' as int) else None
  }

  /** A non-empty run of decimal digits, read back. */
  function ParseNat(s: string): Option<nat>
    decreases |s|
  {
    if s == [] then None
    else
      var d := DigitValue(s[|s| - 1]);
      if d.None? then None
      else if |s| == 1 then Some(d.value)
      else match ParseNat(s[..|s| - 1])
        case None => None
        case Some(p) => Some(p * 10 + d.value)
  }

  function ParseInt(s: string): Option<int>
  {
    if |s| > 0 && s[0] == '-' then Negated(ParseNat(s[1..])) else ParseNat(s)
  }

  function Negated(n: Option<nat>): Option<int>
  {
    match n
    case None => None
    case Some(v) => Some(0 - v)
  }

  lemma {:induction false} NatRoundTrip(n: nat)
    ensures ParseNat(NatToString(n)) == Some(n)
    decreases n
  {
    var s := NatToString(n);
    if n >= 10 {
      NatRoundTrip(n / 10);
      assert s[..|s| - 1] == NatToString(n / 10);
    }
  }

  /** A leading `-` negates what the digits after it read as. */
  lemma ParseNegative(digits: string)
    ensures ParseInt("-" + digits) == Negated(ParseNat(digits))
  {
    var s := "-" + digits;
    assert s[0] == '-' && s[1..] == digits;
  }

  lemma NegativeRoundTrip(n: int)
    requires n < 0
    ensures ParseInt(IntToString(n)) == Some(n)
  {
    var m: nat := -n;
    var digits := NatToString(m);
    assert IntToString(n) == "-" + digits;
    ParseNegative(digits);
    NatRoundTrip(m);
    assert Negated(ParseNat(digits)) == Some(n);
  }

  lemma NonNegativeRoundTrip(n: int)
    requires n >= 0
    ensures ParseInt(IntToString(n)) == Some(n)
  {
    var s := NatToString(n);
    assert s == IntToString(n);
    assert s[0] != '-';
    NatRoundTrip(n);
  }

  /** Reading back what `str` wrote gives the number. */
  lemma IntRoundTrip(n: int)
    ensures ParseInt(IntToString(n)) == Some(n)
  {
    if n < 0 {
      NegativeRoundTrip(n);
    } else {
      NonNegativeRoundTrip(n);
    }
  }

  const QueryHead: string := "sum by (resource) (rate(apiserver_request_total{group=\""
  const QueryMiddle: string := "\",resource=\""
  const QueryRange: string := "\"}["
  const QueryEnd: string := "s]))"

  /** `apiserver_requests_query`: the per-resource rate of API server
      requests for the monitored kind's group and plural lower-case name, over
      the monitor's window. */
  function Query(m: Monitor): string
  {
    QueryHead + m.apiGroup + QueryMiddle + Lower(m.kind) + "s" + QueryRange + IntToString(m.timeDurationSeconds) + QueryEnd
  }

  /** The three things a query is about. */
  datatype QueryParts = QueryParts(apiGroup: string, resource: string, seconds: int)

  /** The index of the first `"` in `s`, or `|s|` if there is none. */
  function FindQuote(s: string): (r: nat)
    ensures r <= |s|
    ensures forall i :: 0 <= i < r ==> s[i] != '"'
    ensures r < |s| ==> s[r] == '"'
  {
    if s == [] || s[0] == '"' then 0 else 1 + FindQuote(s[1..])
  }

  lemma {:induction false} FindQuoteAfter(a: string, b: string)
    requires '"' !in a
    requires |b| > 0 && b[0] == '"'
    ensures FindQuote(a + b) == |a|
    decreases |a|
  {
    if a != [] {
      assert (a + b)[1..] == a[1..] + b;
      FindQuoteAfter(a[1..], b);
    }
  }

  /** Reads a query back: the API group, the resource name (without its
      plural `s`) and the window, or `None` when `q` is not shaped like a
      query. */
  function ParseQuery(q: string): Option<QueryParts>
  {
    if |q| < |QueryHead| || q[..|QueryHead|] != QueryHead then None
    else ParseGroup(q[|QueryHead|..])
  }

  /** The group runs up to the next `"`. */
  function ParseGroup(rest: string): Option<QueryParts>
  {
    var i := FindQuote(rest);
    var after := rest[i..];
    if |after| < |QueryMiddle| || after[..|QueryMiddle|] != QueryMiddle then None
    else ParseResource(rest[..i], after[|QueryMiddle|..])
  }

  /** The plural resource name runs up to the next `"` and ends in `s`. */
  function ParseResource(group: string, rest: string): Option<QueryParts>
  {
    var j := FindQuote(rest);
    var plural := rest[..j];
    if |plural| == 0 || plural[|plural| - 1] != 's' then None
    else ParseWindow(group, plural[..|plural| - 1], rest[j..])
  }

  /** The window is an integer between the range brackets. */
  function ParseWindow(group: string, resource: string, rest: string): Option<QueryParts>
  {
    if |rest| < |QueryRange| + |QueryEnd| || rest[..|QueryRange|] != QueryRange
      || rest[|rest| - |QueryEnd|..] != QueryEnd
    then None
    else
      match ParseInt(rest[|QueryRange|..|rest| - |QueryEnd|])
      case None => None
      case Some(seconds) => Some(QueryParts(group, resource, seconds))
  }

  lemma LowerKeepsQuotesOut(s: string)
    requires '"' !in s
    ensures '"' !in Lower(s)
  {
  }

  lemma ParseWindowOf(group: string, resource: string, n: int)
    ensures ParseWindow(group, resource, QueryRange + IntToString(n) + QueryEnd) == Some(QueryParts(group, resource, n))
  {
    var rest := QueryRange + IntToString(n) + QueryEnd;
    assert rest[..|QueryRange|] == QueryRange;
    assert rest[|rest| - |QueryEnd|..] == QueryEnd;
    assert rest[|QueryRange|..|rest| - |QueryEnd|] == IntToString(n);
    IntRoundTrip(n);
  }

  lemma ParseResourceOf(group: string, resource: string, tail: string)
    requires '"' !in resource
    requires |tail| > 0 && tail[0] == '"'
    ensures ParseResource(group, resource + "s" + tail) == ParseWindow(group, resource, tail)
  {
    var plural := resource + "s";
    var rest := plural + tail;
    FindQuoteAfter(plural, tail);
    assert rest[..|plural|] == plural;
    assert plural[..|resource|] == resource;
    assert rest[|plural|..] == tail;
  }

  lemma ParseGroupOf(group: string, tail: string)
    requires '"' !in group
    ensures ParseGroup(group + QueryMiddle + tail) == ParseResource(group, tail)
  {
    var after := QueryMiddle + tail;
    var rest := group + after;
    assert group + QueryMiddle + tail == rest;
    FindQuoteAfter(group, after);
    assert rest[..|group|] == group;
    assert rest[|group|..] == after;
    assert after[..|QueryMiddle|] == QueryMiddle;
    assert after[|QueryMiddle|..] == tail;
  }

  /** The query names exactly the monitor's API group, its lower-cased kind
      and its window: reading it back recovers them, when the group and the
      kind contain no `"`. */
  lemma QueryRoundTrip(m: Monitor)
    requires '"' !in m.apiGroup && '"' !in m.kind
    ensures ParseQuery(Query(m)) == Some(QueryParts(m.apiGroup, Lower(m.kind), m.timeDurationSeconds))
  {
    var resource := Lower(m.kind);
    var window := QueryRange + IntToString(m.timeDurationSeconds) + QueryEnd;
    var tail := resource + "s" + window;
    var rest := m.apiGroup + QueryMiddle + tail;
    var q := Query(m);
    assert q == QueryHead + rest;
    assert q[..|QueryHead|] == QueryHead;
    assert q[|QueryHead|..] == rest;
    LowerKeepsQuotesOut(m.kind);
    ParseGroupOf(m.apiGroup, tail);
    ParseResourceOf(m.apiGroup, resource, window);
    ParseWindowOf(m.apiGroup, resource, m.timeDurationSeconds);
  }

  // ---------------------------------------------------------------------
  // Sampling

  /** How many samples a sampler with timeout `timeout` reads before its
      deadline: one per 5-second period that starts before it. */
  function SamplerCap(timeout: int): nat
  {
    if timeout <= 0 then 0 else (timeout + SleepSeconds - 1) / SleepSeconds
  }

  /** The samples a sampler yields before it raises its timeout. */
  function Polled(samples: seq<Option<real>>, timeout: int): (window: seq<Option<real>>)
    ensures |window| <= SamplerCap(timeout) && |window| <= |samples|
    ensures window == samples[..|window|]
    ensures |window| < SamplerCap(timeout) ==> window == samples
  {
    if |samples| <= SamplerCap(timeout) then samples else samples[..SamplerCap(timeout)]
  }

  /** The rates of the non-empty samples, in order. */
  function Values(window: seq<Option<real>>): seq<real>
    decreases |window|
  {
    if window == [] then []
    else
      var last := window[|window| - 1];
      Values(window[..|window| - 1]) + (if last.Some? then [last.value] else [])
  }

  /** `initial_silence_count` after reading rates `values`: how many of the
      latest rates in a row are below `idle`. */
  function Silence(values: seq<real>, idle: real): nat
    decreases |values|
  {
    if values == [] then 0
    else if values[|values| - 1] < idle then Silence(values[..|values| - 1], idle) + 1
    else 0
  }

  /** `initial_noise_count` after reading rates `values`: how many of the
      latest rates in a row are at or above `idle`. */
  function Noise(values: seq<real>, idle: real): nat
    decreases |values|
  {
    if values == [] then 0
    else if values[|values| - 1] >= idle then Noise(values[..|values| - 1], idle) + 1
    else 0
  }

  /** The counters are the lengths of the trailing runs: the last `Silence`
      rates are below the threshold and the one before them (if any) is not,
      and dually for `Noise`; so once a rate was read, exactly one counter is
      non-zero. */
  lemma {:induction false} CountersAreTrailingRuns(values: seq<real>, idle: real)
    ensures Silence(values, idle) <= |values| && Noise(values, idle) <= |values|
    ensures forall k :: |values| - Silence(values, idle) <= k < |values| ==> values[k] < idle
    ensures Silence(values, idle) < |values| ==> values[|values| - 1 - Silence(values, idle)] >= idle
    ensures forall k :: |values| - Noise(values, idle) <= k < |values| ==> values[k] >= idle
    ensures Noise(values, idle) < |values| ==> values[|values| - 1 - Noise(values, idle)] < idle
    ensures values != [] ==> (Silence(values, idle) > 0 <==> Noise(values, idle) == 0)
    decreases |values|
  {
    if values != [] {
      var front := values[..|values| - 1];
      CountersAreTrailingRuns(front, idle);
      assert forall k :: 0 <= k < |front| ==> front[k] == values[k];
    }
  }

  /** An empty sample changes neither counter; a rate below the threshold
      adds one to the silence count and zeroes the noise count, and any other
      rate does the opposite. */
  lemma {:induction false} SampleUpdatesCounters(window: seq<Option<real>>, sample: Option<real>, idle: real)
    ensures var before := Values(window);
      var after := Values(window + [sample]);
      && (sample.None? ==> Silence(after, idle) == Silence(before, idle) && Noise(after, idle) == Noise(before, idle))
      && (sample.Some? && sample.value < idle ==>
            Silence(after, idle) == Silence(before, idle) + 1 && Noise(after, idle) == 0)
      && (sample.Some? && sample.value >= idle ==>
            Silence(after, idle) == 0 && Noise(after, idle) == Noise(before, idle) + 1)
  {
    assert (window + [sample])[..|window|] == window;
    assert Values(window + [sample]) == Values(window) + (if sample.Some? then [sample.value] else []);
    if sample.None? {
      assert Values(window + [sample]) == Values(window);
    } else {
      var after := Values(window) + [sample.value];
      assert after[..|after| - 1] == Values(window);
    }
  }

  /** The initial wait's stop condition. */
  predicate InitialStop(values: seq<real>, idle: real)
  {
    Silence(values, idle) > 5 || Noise(values, idle) > 2
  }

  /** The initial wait read `consumed` of the samples in `window`: it stopped
      right after the first sample that met the stop condition, or when the
      window ran out. */
  predicate InitialWaitStopsAt(window: seq<Option<real>>, idle: real, consumed: nat)
  {
    && consumed <= |window|
    && (forall j :: 0 <= j < consumed ==> !InitialStop(Values(window[..j]), idle))
    && (consumed < |window| ==> InitialStop(Values(window[..consumed]), idle))
  }

  /** At most one number of samples fits the stop description. */
  lemma InitialWaitStopsOnce(window: seq<Option<real>>, idle: real, a: nat, b: nat)
    requires InitialWaitStopsAt(window, idle, a) && InitialWaitStopsAt(window, idle, b)
    ensures a == b
  {
  }

  /** `_initial_wait`: reads samples for at most TIMEOUT_30SEC, counting runs
      of quiet and busy rates, and stops once six quiet or three busy rates
      came in a row. Its timeout is swallowed: it never raises. The counters
      are returned only to state what the loop keeps. */
  method InitialWait(m: Monitor, samples: seq<Option<real>>) returns (silence: nat, noise: nat, consumed: nat)
    ensures var window := Polled(samples, Timeout30Sec);
      && InitialWaitStopsAt(window, m.idleRequestsValue, consumed)
      && silence == Silence(Values(window[..consumed]), m.idleRequestsValue)
      && noise == Noise(Values(window[..consumed]), m.idleRequestsValue)
      && silence <= 6 && noise <= 3
  {
    silence, noise, consumed := CountRuns(Polled(samples, Timeout30Sec), m.idleRequestsValue);
  }

  /** The loop of `_initial_wait` over the samples its sampler yields. */
  method CountRuns(window: seq<Option<real>>, idle: real) returns (silence: nat, noise: nat, consumed: nat)
    ensures InitialWaitStopsAt(window, idle, consumed)
    ensures silence == Silence(Values(window[..consumed]), idle)
    ensures noise == Noise(Values(window[..consumed]), idle)
    ensures silence <= 6 && noise <= 3
  {
    silence, noise, consumed := 0, 0, 0;
    while consumed < |window|
      invariant consumed <= |window|
      invariant silence == Silence(Values(window[..consumed]), idle)
      invariant noise == Noise(Values(window[..consumed]), idle)
      invariant silence <= 5 && noise <= 2
      invariant forall j :: 0 <= j < consumed ==> !InitialStop(Values(window[..j]), idle)
    {
      var sample := window[consumed];
      ghost var read := window[..consumed];
      assert !InitialStop(Values(read), idle);
      assert window[..consumed + 1] == read + [sample];
      silence, noise := CountSample(read, sample, idle, silence, noise);
      consumed := consumed + 1;
      if sample.Some? && (silence > 5 || noise > 2) {
        assert InitialStop(Values(window[..consumed]), idle);
        break;
      }
    }
  }

  /** One sample of the initial wait: a rate below the threshold adds one to
      the silence count and zeroes the noise count, any other rate does the
      opposite, and an empty sample changes neither. */
  method CountSample(ghost read: seq<Option<real>>, sample: Option<real>, idle: real, silence: nat, noise: nat)
    returns (silence': nat, noise': nat)
    requires silence == Silence(Values(read), idle) && noise == Noise(Values(read), idle)
    ensures silence' == Silence(Values(read + [sample]), idle)
    ensures noise' == Noise(Values(read + [sample]), idle)
    ensures sample.None? ==> silence' == silence && noise' == noise
  {
    SampleUpdatesCounters(read, sample, idle);
    silence', noise' := silence, noise;
    if sample.Some? {
      if sample.value < idle {
        noise' := 0;
        silence' := silence + 1;
      } else {
        silence' := 0;
        noise' := noise + 1;
      }
    }
  }

  /** The timeout `wait_for_idle` re-raises: the last sample read (`None` if
      the sampler yielded none), the threshold and the query. */
  datatype IdleTimeout = IdleTimeout(lastSample: Option<Option<real>>, threshold: real, query: string)

  /** A sample that shows the cluster idle. */
  predicate IsIdle(sample: Option<real>, idle: real)
  {
    sample.Some? && sample.value < idle
  }

  /** `wait_for_idle`: the initial wait first, then samples for twice the
      window until one shows the cluster idle; if none does, the timeout is
      re-raised. */
  method WaitForIdle(m: Monitor, initialSamples: seq<Option<real>>, samples: seq<Option<real>>)
    returns (initialRead: nat, consumed: nat, r: Outcome<IdleTimeout>)
    ensures InitialWaitStopsAt(Polled(initialSamples, Timeout30Sec), m.idleRequestsValue, initialRead)
    ensures var window := Polled(samples, 2 * m.timeDurationSeconds);
      && consumed <= |window|
      && (r == Pass <==> exists k :: 0 <= k < |window| && IsIdle(window[k], m.idleRequestsValue))
      && (r == Pass ==>
            && consumed > 0 && IsIdle(window[consumed - 1], m.idleRequestsValue)
            && forall k :: 0 <= k < consumed - 1 ==> !IsIdle(window[k], m.idleRequestsValue))
      && (r.Fail? ==>
            && consumed == |window|
            && r.error == IdleTimeout(if window == [] then None else Some(window[|window| - 1]),
                                      m.idleRequestsValue, Query(m)))
  {
    var _, _, read := InitialWait(m, initialSamples);
    initialRead := read;
    var window := Polled(samples, 2 * m.timeDurationSeconds);
    var last: Option<Option<real>> := None;
    consumed := 0;
    while consumed < |window|
      invariant consumed <= |window|
      invariant forall k :: 0 <= k < consumed ==> !IsIdle(window[k], m.idleRequestsValue)
      invariant last == if consumed == 0 then None else Some(window[consumed - 1])
    {
      var sample := window[consumed];
      last := Some(sample);
      consumed := consumed + 1;
      if sample.Some? && sample.value < m.idleRequestsValue {
        return initialRead, consumed, Pass;
      }
    }
    r := Fail(IdleTimeout(last, m.idleRequestsValue, Query(m)));
  }
}
