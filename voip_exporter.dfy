/**
  The VoIP exporter of `exporters/Voip/app.py`: a background thread that seeds
  the VoIP gauges once and then, pass after pass, walks the call counts and
  quality gauges of five codecs and five regions, counts call outcomes with
  their durations, and counts SIP transactions and errors.

  The values the thread draws from `random` are parameters (`SeedDraws`,
  `PassDraws`) whose `...Ok` predicates state the ranges of `randint` and
  `uniform`; each probabilistic branch is an `Option`.
 */
module VoipExporter {
  import opened Telemetry

  // ---------------------------------------------------------------------------
  // Label catalogs

  datatype Codec = G711 | G729 | Opus | AmrWb | Evs
  const Codecs: seq<Codec> := [G711, G729, Opus, AmrWb, Evs]

  function CodecIndex(c: Codec): (i: nat)
    ensures i < |Codecs| && Codecs[i] == c
  {
    match c
    case G711 => 0
    case G729 => 1
    case Opus => 2
    case AmrWb => 3
    case Evs => 4
  }

  datatype Region = North | South | East | West | Central
  const Regions: seq<Region> := [North, South, East, West, Central]

  function RegionIndex(g: Region): (i: nat)
    ensures i < |Regions| && Regions[i] == g
  {
    match g
    case North => 0
    case South => 1
    case East => 2
    case West => 3
    case Central => 4
  }

  datatype SipMethod = Invite | Bye | Register | Cancel | Options | Update | Refer
  const SipMethods: seq<SipMethod> := [Invite, Bye, Register, Cancel, Options, Update, Refer]

  function SipMethodIndex(m: SipMethod): (i: nat)
    ensures i < |SipMethods| && SipMethods[i] == m
  {
    match m
    case Invite => 0
    case Bye => 1
    case Register => 2
    case Cancel => 3
    case Options => 4
    case Update => 5
    case Refer => 6
  }

  /** The SIP error codes 400, 403, 404, 408, 480, 486, 487, 500, 503 and 504. */
  datatype SipErrorCode =
    | BadRequest | Forbidden | NotFound | RequestTimeout | TemporarilyUnavailable
    | BusyHere | RequestTerminated | ServerInternalError | ServiceUnavailable | ServerTimeout

  datatype CallResult = Completed | Failed | Busy | NoAnswer | Rejected
  const CallResults: seq<CallResult> := [Completed, Failed, Busy, NoAnswer, Rejected]

  function CallResultIndex(r: CallResult): (i: nat)
    ensures i < |CallResults| && CallResults[i] == r
  {
    match r
    case Completed => 0
    case Failed => 1
    case Busy => 2
    case NoAnswer => 3
    case Rejected => 4
  }

  lemma CodecPositions() ensures Positions(Codecs, CodecIndex) {}
  lemma RegionPositions() ensures Positions(Regions, RegionIndex) {}
  lemma SipMethodPositions() ensures Positions(SipMethods, SipMethodIndex) {}
  lemma CallResultPositions() ensures Positions(CallResults, CallResultIndex) {}

  // ---------------------------------------------------------------------------
  // The registry

  /**
    The six gauges labelled by one codec: active calls, MOS, jitter, packet
    loss, latency and R-factor.  The source writes all six of a codec
    together, so they are kept as one record per codec.
   */
  datatype CodecGauges = CodecGauges(calls: real, mos: real, jitter: real, packetLoss: real, latency: real, rFactor: real)

  /** How the gauges of a codec read before any of them was written. */
  const Unwritten: CodecGauges := CodecGauges(0.0, 0.0, 0.0, 0.0, 0.0, 0.0)

  /**
    The exporter's instruments.  A gauge or counter child that was never
    written reads 0 (`Get`); a histogram keeps its observations in order.
   */
  datatype Registry = Registry(
    activeCalls: real,
    codecs: map<Codec, CodecGauges>,
    callsByRegion: map<Region, real>,
    callsTotal: map<(Codec, CallResult), int>,
    callDuration: map<Codec, seq<real>>,
    sipTransactions: map<SipMethod, int>,
    sipErrors: map<(SipErrorCode, SipMethod), int>)

  /** The registry at process start: nothing written yet. */
  const Fresh: Registry := Registry(0.0, map[], map[], map[], map[], map[], map[])

  /** Every gauge of a codec inside the range its update clamps it to. */
  predicate GaugesBounded(g: CodecGauges)
  {
    && 0.0 <= g.calls <= 200.0
    && 1.0 <= g.mos <= 5.0
    && 0.0 <= g.jitter
    && 0.0 <= g.packetLoss <= 100.0
    && 10.0 <= g.latency
    && 0.0 <= g.rFactor <= 100.0
  }

  /**
    What the exporter keeps true: every gauge inside the range its update
    clamps it to, every counter non-negative, every call duration in
    [30, 3600], and each codec's duration histogram holding exactly as many
    observations as that codec has completed calls.
   */
  ghost predicate Bounded(r: Registry)
  {
    && 0.0 <= r.activeCalls <= 1000.0
    && (forall c :: c in r.codecs ==> GaugesBounded(r.codecs[c]))
    && (forall g :: g in r.callsByRegion ==> 0.0 <= r.callsByRegion[g] <= 200.0)
    && (forall c, o :: Get(r.callsTotal, (c, o), 0) >= 0)
    && (forall c :: AllWithin(Get(r.callDuration, c, []), 30.0, 3600.0))
    && (forall c :: |Get(r.callDuration, c, [])| == Get(r.callsTotal, (c, Completed), 0))
    && (forall m :: Get(r.sipTransactions, m, 0) >= 0)
    && (forall e, m :: Get(r.sipErrors, (e, m), 0) >= 0)
  }

  lemma FreshBounded()
    ensures Bounded(Fresh)
  {
  }

  // ---------------------------------------------------------------------------
  // Seeding

  /** A `randint` draw: a whole number in [lo, hi], as the float a gauge stores. */
  predicate WholeIn(x: real, lo: int, hi: int)
  {
    x == x.Floor as real && lo as real <= x <= hi as real
  }

  /** The seed draws of one codec: randint(10, 100) calls, then uniform MOS, jitter, loss, latency and R-factor. */
  predicate SeedGaugesOk(g: CodecGauges)
  {
    && WholeIn(g.calls, 10, 100)
    && 3.0 <= g.mos <= 4.8
    && 5.0 <= g.jitter <= 60.0
    && 0.0 <= g.packetLoss <= 5.0
    && 20.0 <= g.latency <= 200.0
    && 70.0 <= g.rFactor <= 93.0
  }

  /** The draws of the seeding before the loop. */
  datatype SeedDraws = SeedDraws(
    totalCalls: real,                  // randint(50, 500)
    codecs: map<Codec, CodecGauges>,   // the six seed draws of every codec
    regionCalls: map<Region, real>)    // randint(10, 100) per region

  predicate SeedDrawsOk(d: SeedDraws)
  {
    && WholeIn(d.totalCalls, 50, 500)
    && (forall c :: c in d.codecs && SeedGaugesOk(d.codecs[c]))
    && (forall g :: g in d.regionCalls && WholeIn(d.regionCalls[g], 10, 100))
  }

  /**
    The seeding took `r0` to `r`: every seeded gauge holds its draw, and the
    counters and the histogram are untouched.
   */
  ghost predicate Seeded(r0: Registry, d: SeedDraws, r: Registry)
    requires SeedDrawsOk(d)
  {
    && r.activeCalls == d.totalCalls
    && (forall c :: c in r.codecs && r.codecs[c] == d.codecs[c])
    && (forall g :: g in r.callsByRegion && r.callsByRegion[g] == d.regionCalls[g])
    && r.callsTotal == r0.callsTotal && r.callDuration == r0.callDuration
    && r.sipTransactions == r0.sipTransactions && r.sipErrors == r0.sipErrors
  }

  /** Seeding keeps the registry bounded: every draw lies inside its gauge's range. */
  lemma SeededKeepsBounds(r0: Registry, d: SeedDraws, r: Registry)
    requires SeedDrawsOk(d) && Bounded(r0) && Seeded(r0, d, r)
    ensures Bounded(r)
  {
  }

  /** `for codec in codecs`: the six gauges of every codec take their seed draws. */
  method SeedCodecLoop(codecs0: map<Codec, CodecGauges>, d: SeedDraws) returns (codecs: map<Codec, CodecGauges>)
    requires SeedDrawsOk(d)
    ensures forall c :: c in codecs && codecs[c] == d.codecs[c]
  {
    codecs := codecs0;
    CodecPositions();
    var i := 0;
    while i < |Codecs|
      invariant 0 <= i <= |Codecs|
      invariant SetUpTo(codecs, d.codecs, CodecIndex, i)
    {
      var c := Codecs[i];
      SetUpToStep(codecs, d.codecs, Codecs, CodecIndex, i);
      codecs := codecs[c := d.codecs[c]];
      i := i + 1;
    }
  }

  /** `for region in regions`: every region gauge takes its seed draw. */
  method SeedRegionLoop(byRegion0: map<Region, real>, d: SeedDraws) returns (byRegion: map<Region, real>)
    requires SeedDrawsOk(d)
    ensures forall g :: g in byRegion && byRegion[g] == d.regionCalls[g]
  {
    byRegion := byRegion0;
    RegionPositions();
    var i := 0;
    while i < |Regions|
      invariant 0 <= i <= |Regions|
      invariant SetUpTo(byRegion, d.regionCalls, RegionIndex, i)
    {
      SetUpToStep(byRegion, d.regionCalls, Regions, RegionIndex, i);
      byRegion := byRegion[Regions[i] := d.regionCalls[Regions[i]]];
      i := i + 1;
    }
  }

  /** The seeding before the loop: the total, then every codec's gauges, then every region's. */
  method SeedMetrics(r: Registry, d: SeedDraws) returns (r': Registry)
    requires SeedDrawsOk(d) && Bounded(r)
    ensures Seeded(r, d, r') && Bounded(r')
  {
    var codecs := SeedCodecLoop(r.codecs, d);
    var byRegion := SeedRegionLoop(r.callsByRegion, d);
    r' := r.(activeCalls := d.totalCalls, codecs := codecs, callsByRegion := byRegion);
    SeededKeepsBounds(r, d, r');
  }

  // ---------------------------------------------------------------------------
  // One pass of the loop

  /** The walk changes drawn for one codec. */
  datatype CodecChanges = CodecChanges(calls: real, mos: real, jitter: real, packetLoss: real, latency: real, rFactor: real)

  predicate CodecChangesOk(ch: CodecChanges)
  {
    && -10.0 <= ch.calls <= 10.0
    && -0.2 <= ch.mos <= 0.2
    && -5.0 <= ch.jitter <= 5.0
    && -0.5 <= ch.packetLoss <= 0.5
    && -10.0 <= ch.latency <= 10.0
    && -2.0 <= ch.rFactor <= 2.0
  }

  /**
    The six walk steps of one codec's gauges.  Each reads its gauge with the
    source's `or`: a stored 0 reads as 0 calls, MOS 4.0, jitter 20, loss 1.0,
    latency 100 or R-factor 80.
   */
  function StepGauges(g: CodecGauges, ch: CodecChanges): CodecGauges
  {
    CodecGauges(
      Walk(g.calls, 0.0, ch.calls, 0.0, 200.0),
      Walk(g.mos, 4.0, ch.mos, 1.0, 5.0),
      WalkAbove(g.jitter, 20.0, ch.jitter, 0.0),
      Walk(g.packetLoss, 1.0, ch.packetLoss, 0.0, 100.0),
      WalkAbove(g.latency, 100.0, ch.latency, 10.0),
      Walk(g.rFactor, 80.0, ch.rFactor, 0.0, 100.0))
  }

  /** Whatever a codec's gauges read before, one step leaves every one of them inside its range. */
  lemma StepGaugesBounded(g: CodecGauges, ch: CodecChanges)
    ensures GaugesBounded(StepGauges(g, ch))
  {
    WalkWithin(g.calls, 0.0, ch.calls, 0.0, 200.0);
    WalkWithin(g.mos, 4.0, ch.mos, 1.0, 5.0);
    WalkAboveWithin(g.jitter, 20.0, ch.jitter, 0.0);
    WalkWithin(g.packetLoss, 1.0, ch.packetLoss, 0.0, 100.0);
    WalkAboveWithin(g.latency, 100.0, ch.latency, 10.0);
    WalkWithin(g.rFactor, 80.0, ch.rFactor, 0.0, 100.0);
  }

  /**
    From bounded gauges, one step moves the call count by at most 10, the
    MOS by at most 0.2 and the latency by at most 10: those gauges never
    read 0 once bounded, so the `or` default never applies to them.
   */
  lemma StepGaugesMoveGently(g: CodecGauges, ch: CodecChanges)
    requires GaugesBounded(g) && CodecChangesOk(ch)
    ensures Abs(StepGauges(g, ch).calls - g.calls) <= 10.0
    ensures Abs(StepGauges(g, ch).mos - g.mos) <= 0.2
    ensures Abs(StepGauges(g, ch).latency - g.latency) <= 10.0
  {
    WalkWithin(g.calls, 0.0, ch.calls, 0.0, 200.0);
    WalkWithin(g.mos, 4.0, ch.mos, 1.0, 5.0);
    WalkAboveWithin(g.latency, 100.0, ch.latency, 10.0);
  }

  /**
    The zero-as-missing quirk of `or`: a jitter, loss or R-factor gauge that
    was clamped to 0 restarts the next pass from 20, 1.0 or 80 rather than
    from 0.
   */
  lemma StepGaugesRestartFromZero(g: CodecGauges, ch: CodecChanges)
    requires CodecChangesOk(ch)
    ensures g.jitter == 0.0 ==> StepGauges(g, ch).jitter == 20.0 + ch.jitter
    ensures g.packetLoss == 0.0 ==> StepGauges(g, ch).packetLoss == 1.0 + ch.packetLoss
    ensures g.rFactor == 0.0 ==> StepGauges(g, ch).rFactor == 80.0 + ch.rFactor
  {
    WalkAboveWithin(g.jitter, 20.0, ch.jitter, 0.0);
    WalkWithin(g.packetLoss, 1.0, ch.packetLoss, 0.0, 100.0);
    WalkWithin(g.rFactor, 80.0, ch.rFactor, 0.0, 100.0);
  }

  /** The draws of one pass. */
  datatype PassDraws = PassDraws(
    trend: real,                             // uniform(-30, 30)
    changes: map<Codec, CodecChanges>,       // the six walk changes of every codec
    outcomes: map<(Codec, CallResult), int>, // randint(0, 3) per codec and result
    durations: map<Codec, seq<real>>,        // uniform(30, 3600), one per completed call
    regionTrend: map<Region, real>,          // uniform(-5, 5) per region
    transactions: map<SipMethod, int>,       // randint(5, 50) per method
    sipErrors: map<SipMethod, Option<(SipErrorCode, int)>>) // (choice, randint(1, 5)) when the 20% branch is taken

  predicate PassDrawsOk(d: PassDraws)
  {
    && -30.0 <= d.trend <= 30.0
    && (forall c :: c in d.changes && CodecChangesOk(d.changes[c]))
    && (forall c, o :: 0 <= Get(d.outcomes, (c, o), 0) <= 3)
    && (forall c :: |Get(d.durations, c, [])| == Get(d.outcomes, (c, Completed), 0))
    && (forall c :: AllWithin(Get(d.durations, c, []), 30.0, 3600.0))
    && (forall g :: g in d.regionTrend && -5.0 <= d.regionTrend[g] <= 5.0)
    && (forall m :: 5 <= Get(d.transactions, m, 0) <= 50)
    && (forall m :: m in d.sipErrors && (d.sipErrors[m].Some? ==> 1 <= d.sipErrors[m].value.1 <= 5))
  }

  /** What the optional error of one SIP method adds to the counter of code `e`. */
  function SipErrorIncrement(o: Option<(SipErrorCode, int)>, e: SipErrorCode): int
  {
    if o.Some? && o.value.0 == e then o.value.1 else 0
  }

  /**
    One pass took `r0` to `r`: the total call gauge took a step clamped to
    [0, 1000]; every codec's gauges took their walk steps; every call-outcome
    counter grew by its draw and every codec's duration histogram received
    that codec's completed-call durations; every region gauge took its step
    (a stored 0 read as 50); every SIP method's transaction counter grew by
    its draw and, when the error branch was taken, the counter of the drawn
    code grew by the drawn count.
   */
  ghost predicate Passed(r0: Registry, d: PassDraws, r: Registry)
    requires PassDrawsOk(d)
  {
    && r.activeCalls == Clamp(0.0, 1000.0, r0.activeCalls + d.trend)
    && (forall c :: c in r.codecs && r.codecs[c] == StepGauges(Get(r0.codecs, c, Unwritten), d.changes[c]))
    && (forall c, o :: Get(r.callsTotal, (c, o), 0) == Get(r0.callsTotal, (c, o), 0) + Get(d.outcomes, (c, o), 0))
    && (forall c :: Get(r.callDuration, c, []) == Get(r0.callDuration, c, []) + Get(d.durations, c, []))
    && (forall g :: g in r.callsByRegion &&
          r.callsByRegion[g] == Walk(Get(r0.callsByRegion, g, 0.0), 50.0, d.regionTrend[g], 0.0, 200.0))
    && (forall m :: Get(r.sipTransactions, m, 0) == Get(r0.sipTransactions, m, 0) + Get(d.transactions, m, 0))
    && (forall e, m :: Get(r.sipErrors, (e, m), 0) ==
          Get(r0.sipErrors, (e, m), 0) + SipErrorIncrement(d.sipErrors[m], e))
  }

  /**
    `for result in call_results` for the codec `c`: every outcome counter of
    `c` grows by its draw, and the histogram of `c` receives one duration per
    completed call.
   */
  method ResultLoop(total0: map<(Codec, CallResult), int>, hist0: map<Codec, seq<real>>, c: Codec,
                    outcomes: map<(Codec, CallResult), int>, durations: map<Codec, seq<real>>)
    returns (total: map<(Codec, CallResult), int>, hist: map<Codec, seq<real>>)
    requires |Get(durations, c, [])| == Get(outcomes, (c, Completed), 0)
    ensures forall c', o :: Get(total, (c', o), 0) ==
              Get(total0, (c', o), 0) + (if c' == c then Get(outcomes, (c', o), 0) else 0)
    ensures forall c' :: Get(hist, c', []) == Get(hist0, c', []) + (if c' == c then Get(durations, c', []) else [])
  {
    total, hist := total0, hist0;
    CallResultPositions();
    var j := 0;
    while j < |CallResults|
      invariant 0 <= j <= |CallResults|
      invariant RowIncreasedUpTo(total, total0, c, outcomes, CallResultIndex, j)
      invariant j == 0 ==> hist == hist0
      invariant 0 < j ==> forall c' :: Get(hist, c', []) == Get(hist0, c', []) + (if c' == c then Get(durations, c', []) else [])
    {
      var o := CallResults[j];
      var count := Get(outcomes, (c, o), 0);
      RowIncreasedUpToStep(total, total0, c, outcomes, CallResults, CallResultIndex, j);
      total := Inc(total, (c, o), count);
      if o == Completed {
        // `for _ in range(count)`: one duration draw per completed call.
        hist := ObserveAll(hist, c, Get(durations, c, []));
      }
      j := j + 1;
    }
  }

  /** The gauges of every codec before place i took their step from `m0`; the others still read as in `m0`. */
  ghost predicate SteppedUpTo(m: map<Codec, CodecGauges>, m0: map<Codec, CodecGauges>,
                              changes: map<Codec, CodecChanges>, i: nat)
    requires forall c :: c in changes
  {
    forall c :: if CodecIndex(c) < i then c in m && m[c] == StepGauges(Get(m0, c, Unwritten), changes[c])
                else Get(m, c, Unwritten) == Get(m0, c, Unwritten)
  }

  lemma SteppedUpToStep(m: map<Codec, CodecGauges>, m0: map<Codec, CodecGauges>,
                        changes: map<Codec, CodecChanges>, i: nat)
    requires (forall c :: c in changes) && i < |Codecs| && SteppedUpTo(m, m0, changes, i)
    ensures Get(m, Codecs[i], Unwritten) == Get(m0, Codecs[i], Unwritten)
    ensures SteppedUpTo(m[Codecs[i] := StepGauges(Get(m, Codecs[i], Unwritten), changes[Codecs[i]])], m0, changes, i + 1)
  {
    var c := Codecs[i];
    assert CodecIndex(c) == i;
    var m' := m[c := StepGauges(Get(m, c, Unwritten), changes[c])];
    forall c' ensures if CodecIndex(c') < i + 1 then c' in m' && m'[c'] == StepGauges(Get(m0, c', Unwritten), changes[c'])
                      else Get(m', c', Unwritten) == Get(m0, c', Unwritten)
    {
      if c' != c {
        assert CodecIndex(c') != i;
      }
    }
  }

  /**
    The body of `for codec in codecs` for the codec at place i: its gauges
    take their walk steps, and ResultLoop updates its outcome counters and
    duration histogram.
   */
  method CodecStep(codecs: map<Codec, CodecGauges>, total: map<(Codec, CallResult), int>, hist: map<Codec, seq<real>>,
                   i: nat, codecs0: map<Codec, CodecGauges>, changes: map<Codec, CodecChanges>,
                   total0: map<(Codec, CallResult), int>, outcomes: map<(Codec, CallResult), int>,
                   hist0: map<Codec, seq<real>>, durations: map<Codec, seq<real>>)
    returns (codecs': map<Codec, CodecGauges>, total': map<(Codec, CallResult), int>, hist': map<Codec, seq<real>>)
    requires i < |Codecs| && forall c :: c in changes
    requires forall c :: |Get(durations, c, [])| == Get(outcomes, (c, Completed), 0)
    requires SteppedUpTo(codecs, codecs0, changes, i)
    requires RowsIncreasedUpTo(total, total0, outcomes, CodecIndex, i)
    requires AppendedUpTo(hist, hist0, durations, CodecIndex, i)
    ensures SteppedUpTo(codecs', codecs0, changes, i + 1)
    ensures RowsIncreasedUpTo(total', total0, outcomes, CodecIndex, i + 1)
    ensures AppendedUpTo(hist', hist0, durations, CodecIndex, i + 1)
  {
    var c := Codecs[i];
    SteppedUpToStep(codecs, codecs0, changes, i);
    codecs' := codecs[c := StepGauges(Get(codecs, c, Unwritten), changes[c])];
    total', hist' := ResultLoop(total, hist, c, outcomes, durations);
    CodecPositions();
    RowsIncreasedUpToStep(total, total', total0, outcomes, Codecs, CodecIndex, i);
    AppendedUpToStep(hist, hist', hist0, durations, Codecs, CodecIndex, i);
  }

  /**
    `for codec in codecs`: the gauges of every codec take their walk steps,
    its outcome counters grow by their draws and its duration histogram
    receives its completed calls' durations.
   */
  method CodecLoop(codecs0: map<Codec, CodecGauges>, changes: map<Codec, CodecChanges>,
                   total0: map<(Codec, CallResult), int>, outcomes: map<(Codec, CallResult), int>,
                   hist0: map<Codec, seq<real>>, durations: map<Codec, seq<real>>)
    returns (codecs: map<Codec, CodecGauges>, total: map<(Codec, CallResult), int>, hist: map<Codec, seq<real>>)
    requires forall c :: c in changes
    requires forall c :: |Get(durations, c, [])| == Get(outcomes, (c, Completed), 0)
    ensures forall c :: c in codecs && codecs[c] == StepGauges(Get(codecs0, c, Unwritten), changes[c])
    ensures forall c, o :: Get(total, (c, o), 0) == Get(total0, (c, o), 0) + Get(outcomes, (c, o), 0)
    ensures forall c :: Get(hist, c, []) == Get(hist0, c, []) + Get(durations, c, [])
  {
    codecs, total, hist := codecs0, total0, hist0;
    var i := 0;
    while i < |Codecs|
      invariant 0 <= i <= |Codecs|
      invariant SteppedUpTo(codecs, codecs0, changes, i)
      invariant RowsIncreasedUpTo(total, total0, outcomes, CodecIndex, i)
      invariant AppendedUpTo(hist, hist0, durations, CodecIndex, i)
    {
      codecs, total, hist := CodecStep(codecs, total, hist, i, codecs0, changes, total0, outcomes, hist0, durations);
      i := i + 1;
    }
    CodecPositions();
    RowsIncreasedAll(total, total0, outcomes, Codecs, CodecIndex);
    AppendedAll(hist, hist0, durations, Codecs, CodecIndex);
  }

  /** `for region in regions`: every region gauge takes its walk step. */
  method RegionLoop(byRegion0: map<Region, real>, d: PassDraws) returns (byRegion: map<Region, real>)
    requires forall g :: g in d.regionTrend
    ensures forall g :: g in byRegion && byRegion[g] == Walk(Get(byRegion0, g, 0.0), 50.0, d.regionTrend[g], 0.0, 200.0)
  {
    byRegion := byRegion0;
    RegionPositions();
    var i := 0;
    while i < |Regions|
      invariant 0 <= i <= |Regions|
      invariant WalkedUpTo(byRegion, byRegion0, d.regionTrend, 50.0, 0.0, 200.0, RegionIndex, i)
    {
      var g := Regions[i];
      WalkedUpToStep(byRegion, byRegion0, d.regionTrend, 50.0, 0.0, 200.0, Regions, RegionIndex, i);
      byRegion := byRegion[g := Walk(Get(byRegion, g, 0.0), 50.0, Get(d.regionTrend, g, 0.0), 0.0, 200.0)];
      i := i + 1;
    }
  }

  /** The SIP error counters after the loop has passed the first i methods. */
  ghost predicate SipErrorsUpTo(errors: map<(SipErrorCode, SipMethod), int>, errors0: map<(SipErrorCode, SipMethod), int>,
                                sipErrors: map<SipMethod, Option<(SipErrorCode, int)>>, i: nat)
  {
    forall e, m :: Get(errors, (e, m), 0) == Get(errors0, (e, m), 0) +
      (if SipMethodIndex(m) < i then SipErrorIncrement(Get(sipErrors, m, None), e) else 0)
  }

  lemma SipErrorsUpToStep(errors: map<(SipErrorCode, SipMethod), int>, errors': map<(SipErrorCode, SipMethod), int>,
                          errors0: map<(SipErrorCode, SipMethod), int>,
                          sipErrors: map<SipMethod, Option<(SipErrorCode, int)>>, i: nat)
    requires i < |SipMethods| && SipErrorsUpTo(errors, errors0, sipErrors, i)
    requires var o := Get(sipErrors, SipMethods[i], None);
      errors' == if o.Some? then Inc(errors, (o.value.0, SipMethods[i]), o.value.1) else errors
    ensures SipErrorsUpTo(errors', errors0, sipErrors, i + 1)
  {
    SipMethodPositions();
    var o := Get(sipErrors, SipMethods[i], None);
    forall e, m ensures Get(errors', (e, m), 0) == Get(errors0, (e, m), 0) +
      (if SipMethodIndex(m) < i + 1 then SipErrorIncrement(Get(sipErrors, m, None), e) else 0)
    {
      if m == SipMethods[i] {
        assert SipMethodIndex(m) == i;
      } else {
        assert SipMethodIndex(m) != i;
      }
    }
  }

  lemma SipErrorsAll(errors: map<(SipErrorCode, SipMethod), int>, errors0: map<(SipErrorCode, SipMethod), int>,
                     sipErrors: map<SipMethod, Option<(SipErrorCode, int)>>)
    requires SipErrorsUpTo(errors, errors0, sipErrors, |SipMethods|)
    ensures forall e, m :: Get(errors, (e, m), 0) == Get(errors0, (e, m), 0) + SipErrorIncrement(Get(sipErrors, m, None), e)
  {
    SipMethodPositions();
    forall e, m ensures Get(errors, (e, m), 0) == Get(errors0, (e, m), 0) + SipErrorIncrement(Get(sipErrors, m, None), e) {
      assert SipMethodIndex(m) < |SipMethods|;
    }
  }

  /**
    `for method in sip_methods`: every transaction counter grows by its draw,
    and when the error branch is taken the drawn code's counter grows by the
    drawn count.
   */
  method SipLoop(transactions0: map<SipMethod, int>, errors0: map<(SipErrorCode, SipMethod), int>, d: PassDraws)
    returns (transactions: map<SipMethod, int>, errors: map<(SipErrorCode, SipMethod), int>)
    ensures forall m :: Get(transactions, m, 0) == Get(transactions0, m, 0) + Get(d.transactions, m, 0)
    ensures forall e, m :: Get(errors, (e, m), 0) == Get(errors0, (e, m), 0) + SipErrorIncrement(Get(d.sipErrors, m, None), e)
  {
    transactions, errors := transactions0, errors0;
    SipMethodPositions();
    var i := 0;
    while i < |SipMethods|
      invariant 0 <= i <= |SipMethods|
      invariant IncreasedUpTo(transactions, transactions0, d.transactions, SipMethodIndex, i)
      invariant SipErrorsUpTo(errors, errors0, d.sipErrors, i)
    {
      var m := SipMethods[i];
      IncreasedUpToStep(transactions, transactions0, d.transactions, SipMethods, SipMethodIndex, i);
      transactions := Inc(transactions, m, Get(d.transactions, m, 0));
      var error := Get(d.sipErrors, m, None);
      var errors' := errors;
      if error.Some? {
        errors' := Inc(errors, (error.value.0, m), error.value.1);
      }
      SipErrorsUpToStep(errors, errors', errors0, d.sipErrors, i);
      errors := errors';
      i := i + 1;
    }
    IncreasedAll(transactions, transactions0, d.transactions, SipMethods, SipMethodIndex);
    SipErrorsAll(errors, errors0, d.sipErrors);
  }

  /** One pass of the loop: the total, the codecs, the regions, then the SIP methods. */
  method SimulatePass(r: Registry, d: PassDraws) returns (r': Registry)
    requires PassDrawsOk(d) && Bounded(r)
    ensures Passed(r, d, r') && Bounded(r')
  {
    // `current_calls or 0` reads a stored 0.0 as 0, so it is the stored value itself.
    var calls := Clamp(0.0, 1000.0, r.activeCalls + d.trend);
    var codecs, total, hist := CodecLoop(r.codecs, d.changes, r.callsTotal, d.outcomes, r.callDuration, d.durations);
    var byRegion := RegionLoop(r.callsByRegion, d);
    var transactions, errors := SipLoop(r.sipTransactions, r.sipErrors, d);
    r' := Registry(calls, codecs, byRegion, total, hist, transactions, errors);
    PassKeepsBounds(r, d, r');
  }

  /**
    A pass keeps the registry bounded; in particular each codec's duration
    histogram grows by exactly as many observations as its completed-call
    counter grows.
   */
  lemma PassKeepsBounds(r0: Registry, d: PassDraws, r: Registry)
    requires PassDrawsOk(d) && Bounded(r0) && Passed(r0, d, r)
    ensures Bounded(r)
    ensures forall c :: |Get(r.callDuration, c, [])| - |Get(r0.callDuration, c, [])| ==
                        Get(r.callsTotal, (c, Completed), 0) - Get(r0.callsTotal, (c, Completed), 0)
  {
    PassGaugesBounded(r0, d, r);
    PassDurationsWithin(r0, d, r);
    forall e, m ensures Get(r.sipErrors, (e, m), 0) >= 0 {
      assert SipErrorIncrement(d.sipErrors[m], e) >= 0;
    }
  }

  /** After a pass every codec's gauges and every region gauge are in range, whatever they read before. */
  lemma PassGaugesBounded(r0: Registry, d: PassDraws, r: Registry)
    requires PassDrawsOk(d) && Passed(r0, d, r)
    ensures forall c :: c in r.codecs ==> GaugesBounded(r.codecs[c])
    ensures forall g :: g in r.callsByRegion ==> 0.0 <= r.callsByRegion[g] <= 200.0
  {
    forall c | c in r.codecs ensures GaugesBounded(r.codecs[c]) {
      StepGaugesBounded(Get(r0.codecs, c, Unwritten), d.changes[c]);
    }
    forall g | g in r.callsByRegion ensures 0.0 <= r.callsByRegion[g] <= 200.0 {
      WalkWithin(Get(r0.callsByRegion, g, 0.0), 50.0, d.regionTrend[g], 0.0, 200.0);
    }
  }

  /** After a pass from a bounded registry every call duration is in [30, 3600]. */
  lemma PassDurationsWithin(r0: Registry, d: PassDraws, r: Registry)
    requires PassDrawsOk(d) && Bounded(r0) && Passed(r0, d, r)
    ensures forall c :: AllWithin(Get(r.callDuration, c, []), 30.0, 3600.0)
  {
    forall c ensures AllWithin(Get(r.callDuration, c, []), 30.0, 3600.0) {
      AllWithinConcat(Get(r0.callDuration, c, []), Get(d.durations, c, []), 30.0, 3600.0);
    }
  }

  /**
    What one pass adds to the counters: 0 to 3 calls per codec and result,
    5 to 50 transactions per SIP method, and errors for at most one code per
    method, 1 to 5 of them when there are any.
   */
  lemma PassCounterGrowth(r0: Registry, d: PassDraws, r: Registry)
    requires PassDrawsOk(d) && Passed(r0, d, r)
    ensures forall c, o :: 0 <= Get(r.callsTotal, (c, o), 0) - Get(r0.callsTotal, (c, o), 0) <= 3
    ensures forall m :: 5 <= Get(r.sipTransactions, m, 0) - Get(r0.sipTransactions, m, 0) <= 50
    ensures forall e, m :: 0 <= Get(r.sipErrors, (e, m), 0) - Get(r0.sipErrors, (e, m), 0) <= 5
    ensures forall e, e', m ::
              (Get(r.sipErrors, (e, m), 0) > Get(r0.sipErrors, (e, m), 0) &&
               Get(r.sipErrors, (e', m), 0) > Get(r0.sipErrors, (e', m), 0)) ==> e == e'
  {
    forall e, m ensures 0 <= SipErrorIncrement(d.sipErrors[m], e) <= 5 {
    }
  }

  // ---------------------------------------------------------------------------
  // The exporter process

  /**
    The exporter process: the module-level instruments that
    `generate_voip_metrics` seeds once and then updates in place on every
    pass of its loop. `simulating` records that the seeding ran, so the
    loop is running.
   */
  class Exporter {
    var registry: Registry
    var simulating: bool

    ghost predicate Valid()
      reads this
    {
      Bounded(registry)
    }

    /** Process start: every instrument is registered and unwritten. */
    constructor ()
      ensures Valid() && registry == Fresh && !simulating
    {
      registry := Fresh;
      simulating := false;
      FreshBounded();
    }

    /**
      The start of `generate_voip_metrics`: with the simulation disabled it
      returns at once and writes nothing; otherwise it seeds the gauges.
     */
    method Start(enabled: bool, d: SeedDraws)
      requires Valid() && !simulating && SeedDrawsOk(d)
      modifies this
      ensures Valid() && simulating == enabled
      ensures !enabled ==> registry == old(registry)
      ensures enabled ==> Seeded(old(registry), d, registry)
    {
      if enabled {
        registry := SeedMetrics(registry, d);
        simulating := true;
      }
    }

    /** One pass of the `while True` loop. */
    method Pass(d: PassDraws)
      requires Valid() && simulating && PassDrawsOk(d)
      modifies this
      ensures Valid() && simulating && Passed(old(registry), d, registry)
    {
      registry := SimulatePass(registry, d);
    }
  }
}
