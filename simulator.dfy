/**
  The aggregating simulator of `simulator/app.py`: one process that walks a
  small set of Diameter, VoIP, IPsec and mobile-network series, keeps the
  rolling history the dashboard reads, and answers the dashboard's status and
  control requests.

  Each generator takes the values the source draws from `random` as a
  parameter (`...Draws`), whose `...DrawsOk` predicate states the ranges of
  `randint`/`uniform`; a probabilistic branch is an `Option` or a `bool`.
 */
module Simulator {
  import opened Telemetry
  import opened MetricsHistory

  // ---------------------------------------------------------------------------
  // Label catalogs

  datatype RequestType = CCR | AAR | RAR | STR
  const RequestTypes: seq<RequestType> := [CCR, AAR, RAR, STR]

  datatype DiameterError = Timeout | AuthenticationFailed | UnknownSession | NetworkError

  datatype Application = Gx | Gy | Ro | Rf | S6a
  const Applications: seq<Application> := [Gx, Gy, Ro, Rf, S6a]

  datatype Codec = G711 | G729 | Opus | AmrWb
  const Codecs: seq<Codec> := [G711, G729, Opus, AmrWb]

  datatype TunnelState = Established | Connecting | Failed
  const TunnelStates: seq<TunnelState> := [Established, Connecting, Failed]

  /** Bandwidth and latency are set for `tunnel_1` .. `tunnel_5`; tunnel_i is the key i. */
  const FirstTunnel: int := 1
  const LastTunnel: int := 5

  datatype CryptoError = IntegrityCheck | DecryptFailure | InvalidKey

  datatype SubscriberType = Prepaid | Postpaid | Iot | Roaming
  const SubscriberTypes: seq<SubscriberType> := [Prepaid, Postpaid, Iot, Roaming]

  datatype Generation = Gen3G | Gen4G | Gen5G
  const Generations: seq<Generation> := [Gen3G, Gen4G, Gen5G]

  /** Signal quality is set for `cell_1` .. `cell_3`; cell_i is the key i. */
  const CellCount: int := 3

  datatype HandoverResult = HandoverSuccess | HandoverFailure | HandoverRejected
  const HandoverResults: seq<HandoverResult> := [HandoverSuccess, HandoverFailure, HandoverRejected]

  lemma RequestTypesComplete()
    ensures forall t: RequestType :: t in RequestTypes
  {
    forall t: RequestType ensures t in RequestTypes {
      assert t == RequestTypes[0] || t == RequestTypes[1] || t == RequestTypes[2] || t == RequestTypes[3];
    }
  }

  lemma ApplicationsComplete()
    ensures forall a: Application :: a in Applications
  {
    forall a: Application ensures a in Applications {
      assert a == Applications[0] || a == Applications[1] || a == Applications[2] || a == Applications[3] || a == Applications[4];
    }
  }

  /** The position of `c` in Codecs. */
  function CodecIndex(c: Codec): (i: nat)
    ensures i < |Codecs| && Codecs[i] == c
  {
    match c
    case G711 => 0
    case G729 => 1
    case Opus => 2
    case AmrWb => 3
  }

  lemma CodecAt(i: nat)
    requires i < |Codecs|
    ensures CodecIndex(Codecs[i]) == i
  {
  }

  lemma SubscriberTypesComplete()
    ensures forall s: SubscriberType :: s in SubscriberTypes
  {
    forall s: SubscriberType ensures s in SubscriberTypes {
      assert s == SubscriberTypes[0] || s == SubscriberTypes[1] || s == SubscriberTypes[2] || s == SubscriberTypes[3];
    }
  }

  lemma GenerationsComplete()
    ensures forall g: Generation :: g in Generations
  {
    forall g: Generation ensures g in Generations {
      assert g == Generations[0] || g == Generations[1] || g == Generations[2];
    }
  }

  lemma HandoverResultsComplete()
    ensures forall r: HandoverResult :: r in HandoverResults
  {
    forall r: HandoverResult ensures r in HandoverResults {
      assert r == HandoverResults[0] || r == HandoverResults[1] || r == HandoverResults[2];
    }
  }

  // ---------------------------------------------------------------------------
  // Per-series steps

  /** An active-session gauge: `max(0, current + change)`, change drawn in [-50, 50]. */
  function NextSessions(current: int, change: int): (r: int)
    requires -50 <= change <= 50
    ensures r >= 0
    ensures current >= 0 ==> AbsInt(r - current) <= 50
    ensures current + change >= 0 ==> r == current + change
  {
    WalkCount(current, change)
  }

  /** The active-call gauge: `max(0, min(500, current + trend))`, trend drawn in [-30, 30]. */
  function NextVoipCalls(current: real, trend: real): (r: real)
    requires -30.0 <= trend <= 30.0
    ensures 0.0 <= r <= 500.0
    ensures 0.0 <= current <= 500.0 ==> Abs(r - current) <= 30.0
    ensures 0.0 <= current + trend <= 500.0 ==> r == current + trend
  {
    // `current or 0` reads a stored 0.0 as 0, so it is `current` itself.
    Clamp(0.0, 500.0, current + trend)
  }

  /** A subscriber gauge: `max(0, current + change)`, change drawn in [-100, 100]. */
  function NextSubscribers(current: int, change: int): (r: int)
    requires -100 <= change <= 100
    ensures r >= 0
    ensures current >= 0 ==> AbsInt(r - current) <= 100
    ensures current + change >= 0 ==> r == current + change
  {
    WalkCount(current, change)
  }

  /** The three tunnel counts drawn for established, connecting and failed. */
  predicate TunnelCountsOk(counts: seq<int>)
  {
    && |counts| == |TunnelStates|
    && 10 <= counts[0] <= 50
    && 0 <= counts[1] <= 5
    && 0 <= counts[2] <= 3
  }

  /** `sum(counts)`, the IPsec aggregate of the history: always in [10, 58]. */
  function TunnelTotal(counts: seq<int>): (r: int)
    requires TunnelCountsOk(counts)
    ensures 10 <= r <= 58
    ensures r == counts[0] + counts[1] + counts[2]
  {
    assert Sum(counts[2..]) == counts[2] by { assert counts[2..][1..] == []; }
    assert Sum(counts[1..]) == counts[1] + counts[2] by { assert counts[1..][1..] == counts[2..]; }
    Sum(counts)
  }

  /** The Diameter aggregate of the history: the sum of the four request counters. */
  function TotalRequests(requests: map<RequestType, int>): int
  {
    Get(requests, CCR, 0) + Get(requests, AAR, 0) + Get(requests, RAR, 0) + Get(requests, STR, 0)
  }

  /** The mobile aggregate of the history: the sum of the four subscriber gauges. */
  function TotalSubscribers(subscribers: map<SubscriberType, int>): int
  {
    Get(subscribers, Prepaid, 0) + Get(subscribers, Postpaid, 0) + Get(subscribers, Iot, 0) + Get(subscribers, Roaming, 0)
  }

  /** The handover counter increment: `randint(1, 10)` when the 50% branch is taken. */
  function HandoverIncrement(o: Option<int>): int
  {
    if o.Some? then o.value else 0
  }

  // ---------------------------------------------------------------------------
  // Draws

  /** The draws of one `generate_diameter_metrics` call. */
  datatype DiameterDraws = DiameterDraws(
    increments: map<RequestType, int>,     // randint(1, 20) per request type
    latencies: map<RequestType, real>,     // uniform(20, 300) per request type
    error: Option<DiameterError>,          // Some(choice) when the 30% branch is taken
    sessionChanges: map<Application, int>) // randint(-50, 50) per application

  predicate DiameterDrawsOk(d: DiameterDraws)
  {
    && (forall t: RequestType :: t in d.increments && 1 <= d.increments[t] <= 20)
    && (forall t: RequestType :: t in d.latencies && 20.0 <= d.latencies[t] <= 300.0)
    && (forall a: Application :: a in d.sessionChanges && -50 <= d.sessionChanges[a] <= 50)
  }

  /** The draws of one `generate_voip_metrics` call. */
  datatype VoipDraws = VoipDraws(
    trend: real,                   // uniform(-30, 30)
    mos: map<Codec, real>,         // uniform(3.0, 4.8) per codec
    jitter: map<Codec, real>,      // uniform(5, 60) per codec
    loss: map<Codec, real>,        // uniform(0, 5) per codec
    setupTime: map<Codec, real>)   // uniform(50, 2000) per codec

  predicate VoipDrawsOk(d: VoipDraws)
  {
    && -30.0 <= d.trend <= 30.0
    && (forall c: Codec :: c in d.mos && 3.0 <= d.mos[c] <= 4.8)
    && (forall c: Codec :: c in d.jitter && 5.0 <= d.jitter[c] <= 60.0)
    && (forall c: Codec :: c in d.loss && 0.0 <= d.loss[c] <= 5.0)
    && (forall c: Codec :: c in d.setupTime && 50.0 <= d.setupTime[c] <= 2000.0)
  }

  /** The draws of one `generate_ipsec_metrics` call. */
  datatype IpsecDraws = IpsecDraws(
    counts: seq<int>,              // randint(10, 50), randint(0, 5), randint(0, 3)
    bandwidth: map<int, real>,     // uniform(5, 100) per tunnel 1..5
    latency: map<int, real>,       // uniform(10, 150) per tunnel 1..5
    cryptoError: Option<CryptoError>) // Some(choice) when the 10% branch is taken

  predicate IpsecDrawsOk(d: IpsecDraws)
  {
    && TunnelCountsOk(d.counts)
    && (forall k :: FirstTunnel <= k <= LastTunnel ==> k in d.bandwidth && 5.0 <= d.bandwidth[k] <= 100.0)
    && (forall k :: FirstTunnel <= k <= LastTunnel ==> k in d.latency && 10.0 <= d.latency[k] <= 150.0)
  }

  /** The draws of one `generate_mobile_metrics` call. */
  datatype MobileDraws = MobileDraws(
    subscriberChanges: map<SubscriberType, int>,   // randint(-100, 100) per type
    traffic: map<Generation, real>,                // uniform(0.5, 20) per generation
    signal: map<(Generation, int), real>,          // uniform(40, 95) per generation and cell 1..3
    handovers: map<HandoverResult, Option<int>>)   // Some(randint(1, 10)) when the 50% branch is taken

  predicate MobileDrawsOk(d: MobileDraws)
  {
    && (forall s: SubscriberType :: s in d.subscriberChanges && -100 <= d.subscriberChanges[s] <= 100)
    && (forall g: Generation :: g in d.traffic && 0.5 <= d.traffic[g] <= 20.0)
    && (forall g: Generation, c: int :: 1 <= c <= CellCount ==> (g, c) in d.signal && 40.0 <= d.signal[(g, c)] <= 95.0)
    && (forall r: HandoverResult :: r in d.handovers && (d.handovers[r].Some? ==> 1 <= d.handovers[r].value <= 10))
  }

  /** The draws of one pass of `generate_metrics`. */
  datatype TickDraws = TickDraws(diameter: DiameterDraws, voip: VoipDraws, ipsec: IpsecDraws, mobile: MobileDraws)

  predicate TickDrawsOk(d: TickDraws)
  {
    DiameterDrawsOk(d.diameter) && VoipDrawsOk(d.voip) && IpsecDrawsOk(d.ipsec) && MobileDrawsOk(d.mobile)
  }

  // ---------------------------------------------------------------------------
  // The generators' loops over a label catalog, each on the instruments it writes

  /** `for req_type in request_types`: each counter grows by its draw, each latency gauge takes its draw. */
  method RequestLoop(requests0: map<RequestType, int>, latency0: map<RequestType, real>, d: DiameterDraws)
    returns (requests: map<RequestType, int>, latency: map<RequestType, real>)
    requires DiameterDrawsOk(d)
    ensures forall t :: Get(requests, t, 0) == Get(requests0, t, 0) + d.increments[t]
    ensures forall t :: t in latency && latency[t] == d.latencies[t]
  {
    requests, latency := requests0, latency0;
    assert Distinct(RequestTypes);
    var i := 0;
    while i < |RequestTypes|
      invariant 0 <= i <= |RequestTypes|
      invariant forall t :: Get(requests, t, 0) ==
                  Get(requests0, t, 0) + (if t in RequestTypes[..i] then d.increments[t] else 0)
      invariant forall t :: t in RequestTypes[..i] ==> t in latency && latency[t] == d.latencies[t]
    {
      var t := RequestTypes[i];
      assert RequestTypes[..i + 1] == RequestTypes[..i] + [t];
      requests := Inc(requests, t, d.increments[t]);
      latency := latency[t := d.latencies[t]];
      i := i + 1;
    }
    RequestTypesComplete();
    assert RequestTypes[..i] == RequestTypes;
  }

  /** `for app in applications`: each active-session gauge takes one step. */
  method SessionLoop(sessions0: map<Application, int>, d: DiameterDraws) returns (sessions: map<Application, int>)
    requires DiameterDrawsOk(d)
    ensures forall a :: Get(sessions, a, 0) == NextSessions(Get(sessions0, a, 0), d.sessionChanges[a])
  {
    sessions := sessions0;
    assert Distinct(Applications);
    var i := 0;
    while i < |Applications|
      invariant 0 <= i <= |Applications|
      invariant forall a :: Get(sessions, a, 0) ==
                  if a in Applications[..i] then NextSessions(Get(sessions0, a, 0), d.sessionChanges[a])
                  else Get(sessions0, a, 0)
    {
      var a := Applications[i];
      assert Applications[..i + 1] == Applications[..i] + [a];
      // `current or 0` reads a stored 0 as 0, so it is the stored value itself.
      var current := Get(sessions, a, 0);
      sessions := sessions[a := NextSessions(current, d.sessionChanges[a])];
      i := i + 1;
    }
    ApplicationsComplete();
    assert Applications[..i] == Applications;
  }

  /** The gauge `m` holds its draw from `x` for the first `i` codecs of the catalog. */
  ghost predicate SetUpTo(m: map<Codec, real>, x: map<Codec, real>, i: nat)
  {
    forall c :: CodecIndex(c) < i ==> c in m && c in x && m[c] == x[c]
  }

  lemma SetUpToStep(m: map<Codec, real>, x: map<Codec, real>, i: nat)
    requires i < |Codecs| && SetUpTo(m, x, i) && Codecs[i] in x
    ensures SetUpTo(m[Codecs[i] := x[Codecs[i]]], x, i + 1)
  {
    CodecAt(i);
  }

  /** The histogram `h` holds one more observation than `h0`, from `x`, for the first `i` codecs of the catalog. */
  ghost predicate ObservedUpTo(h: map<Codec, seq<real>>, h0: map<Codec, seq<real>>, x: map<Codec, real>, i: nat)
  {
    forall c :: Get(h, c, []) == if CodecIndex(c) < i && c in x then Get(h0, c, []) + [x[c]] else Get(h0, c, [])
  }

  lemma ObservedUpToStep(h: map<Codec, seq<real>>, h0: map<Codec, seq<real>>, x: map<Codec, real>, i: nat)
    requires i < |Codecs| && ObservedUpTo(h, h0, x, i) && Codecs[i] in x
    ensures ObservedUpTo(Observe(h, Codecs[i], x[Codecs[i]]), h0, x, i + 1)
  {
    CodecAt(i);
  }

  /** One codec of the `for codec in codecs` loop keeps the loop's invariants. */
  lemma CodecStep(quality: map<Codec, real>, jitter: map<Codec, real>, loss: map<Codec, real>,
                  setup: map<Codec, seq<real>>, setup0: map<Codec, seq<real>>, d: VoipDraws, i: nat)
    requires VoipDrawsOk(d) && i < |Codecs|
    requires SetUpTo(quality, d.mos, i) && SetUpTo(jitter, d.jitter, i) && SetUpTo(loss, d.loss, i)
    requires ObservedUpTo(setup, setup0, d.setupTime, i)
    ensures var c := Codecs[i];
      && SetUpTo(quality[c := d.mos[c]], d.mos, i + 1) && SetUpTo(jitter[c := d.jitter[c]], d.jitter, i + 1)
      && SetUpTo(loss[c := d.loss[c]], d.loss, i + 1) && ObservedUpTo(Observe(setup, c, d.setupTime[c]), setup0, d.setupTime, i + 1)
  {
    SetUpToStep(quality, d.mos, i);
    SetUpToStep(jitter, d.jitter, i);
    SetUpToStep(loss, d.loss, i);
    ObservedUpToStep(setup, setup0, d.setupTime, i);
  }

  /**
    `for codec in codecs`: the three quality gauges of each codec take their
    draws and its setup-time histogram gets one observation.
   */
  method CodecLoop(quality0: map<Codec, real>, jitter0: map<Codec, real>, loss0: map<Codec, real>,
                   setup0: map<Codec, seq<real>>, d: VoipDraws)
    returns (quality: map<Codec, real>, jitter: map<Codec, real>, loss: map<Codec, real>,
             setup: map<Codec, seq<real>>)
    requires VoipDrawsOk(d)
    ensures forall c :: c in quality && quality[c] == d.mos[c]
    ensures forall c :: c in jitter && jitter[c] == d.jitter[c]
    ensures forall c :: c in loss && loss[c] == d.loss[c]
    ensures forall c :: Get(setup, c, []) == Get(setup0, c, []) + [d.setupTime[c]]
  {
    quality, jitter, loss, setup := quality0, jitter0, loss0, setup0;
    var i := 0;
    while i < |Codecs|
      invariant 0 <= i <= |Codecs|
      invariant SetUpTo(quality, d.mos, i) && SetUpTo(jitter, d.jitter, i) && SetUpTo(loss, d.loss, i)
      invariant ObservedUpTo(setup, setup0, d.setupTime, i)
    {
      var c := Codecs[i];
      CodecStep(quality, jitter, loss, setup, setup0, d, i);
      quality := quality[c := d.mos[c]];
      jitter := jitter[c := d.jitter[c]];
      loss := loss[c := d.loss[c]];
      setup := Observe(setup, c, d.setupTime[c]);
      i := i + 1;
    }
  }

  /** `for state, count in zip(states, counts)`: each state gauge takes its count. */
  method TunnelStateLoop(tunnels0: map<TunnelState, int>, counts: seq<int>) returns (tunnels: map<TunnelState, int>)
    requires TunnelCountsOk(counts)
    ensures forall j :: 0 <= j < |TunnelStates| ==> TunnelStates[j] in tunnels && tunnels[TunnelStates[j]] == counts[j]
  {
    tunnels := tunnels0;
    assert Distinct(TunnelStates);
    var j := 0;
    while j < |TunnelStates|
      invariant 0 <= j <= |TunnelStates|
      invariant forall j' :: 0 <= j' < j ==> TunnelStates[j'] in tunnels && tunnels[TunnelStates[j']] == counts[j']
    {
      tunnels := tunnels[TunnelStates[j] := counts[j]];
      j := j + 1;
    }
  }

  /** `for i in range(1, 6)`: tunnels 1..5 take their bandwidth and latency draws; no other tunnel changes. */
  method TunnelLoop(bandwidth0: map<int, real>, latency0: map<int, real>, d: IpsecDraws)
    returns (bandwidth: map<int, real>, latency: map<int, real>)
    requires IpsecDrawsOk(d)
    ensures forall k :: FirstTunnel <= k <= LastTunnel ==>
              k in bandwidth && bandwidth[k] == d.bandwidth[k] && k in latency && latency[k] == d.latency[k]
    ensures forall k :: !(FirstTunnel <= k <= LastTunnel) ==> Agree(bandwidth, bandwidth0, k) && Agree(latency, latency0, k)
  {
    bandwidth, latency := bandwidth0, latency0;
    var k := FirstTunnel;
    while k <= LastTunnel
      invariant FirstTunnel <= k <= LastTunnel + 1
      invariant forall k' :: FirstTunnel <= k' < k ==>
                  k' in bandwidth && bandwidth[k'] == d.bandwidth[k'] && k' in latency && latency[k'] == d.latency[k']
      invariant forall k' :: !(FirstTunnel <= k' < k) ==> (k' in bandwidth <==> k' in bandwidth0)
      invariant forall k' :: !(FirstTunnel <= k' < k) && k' in bandwidth ==> bandwidth[k'] == bandwidth0[k']
      invariant forall k' :: !(FirstTunnel <= k' < k) ==> (k' in latency <==> k' in latency0)
      invariant forall k' :: !(FirstTunnel <= k' < k) && k' in latency ==> latency[k'] == latency0[k']
    {
      bandwidth := bandwidth[k := d.bandwidth[k]];
      latency := latency[k := d.latency[k]];
      k := k + 1;
    }
  }

  /** `for sub_type in subscriber_types`: each subscriber gauge takes one step. */
  method SubscriberLoop(subscribers0: map<SubscriberType, int>, d: MobileDraws)
    returns (subscribers: map<SubscriberType, int>)
    requires MobileDrawsOk(d)
    ensures forall s :: Get(subscribers, s, 0) == NextSubscribers(Get(subscribers0, s, 0), d.subscriberChanges[s])
  {
    subscribers := subscribers0;
    assert Distinct(SubscriberTypes);
    var i := 0;
    while i < |SubscriberTypes|
      invariant 0 <= i <= |SubscriberTypes|
      invariant forall s :: Get(subscribers, s, 0) ==
                  if s in SubscriberTypes[..i] then NextSubscribers(Get(subscribers0, s, 0), d.subscriberChanges[s])
                  else Get(subscribers0, s, 0)
    {
      var s := SubscriberTypes[i];
      assert SubscriberTypes[..i + 1] == SubscriberTypes[..i] + [s];
      // `current or 0` reads a stored 0 as 0, so it is the stored value itself.
      var current := Get(subscribers, s, 0);
      subscribers := subscribers[s := NextSubscribers(current, d.subscriberChanges[s])];
      i := i + 1;
    }
    SubscriberTypesComplete();
    assert SubscriberTypes[..i] == SubscriberTypes;
  }

  /** `for cell_id in range(1, 4)`: the three cells of generation `g` take their signal draws. */
  method CellLoop(signal0: map<(Generation, int), real>, g: Generation, d: MobileDraws)
    returns (signal: map<(Generation, int), real>)
    requires MobileDrawsOk(d)
    ensures forall c :: 1 <= c <= CellCount ==> (g, c) in signal && signal[(g, c)] == d.signal[(g, c)]
    ensures forall g', c :: !(g' == g && 1 <= c <= CellCount) ==> Agree(signal, signal0, (g', c))
  {
    signal := signal0;
    var cell := 1;
    while cell <= CellCount
      invariant 1 <= cell <= CellCount + 1
      invariant forall c :: 1 <= c < cell ==> (g, c) in signal && signal[(g, c)] == d.signal[(g, c)]
      invariant forall g', c :: !(g' == g && 1 <= c < cell) ==> ((g', c) in signal <==> (g', c) in signal0)
      invariant forall g', c :: !(g' == g && 1 <= c < cell) && (g', c) in signal ==> signal[(g', c)] == signal0[(g', c)]
    {
      signal := signal[(g, cell) := d.signal[(g, cell)]];
      cell := cell + 1;
    }
  }

  /**
    `for gen in generations`: each generation's traffic gauge takes its draw and
    its cells 1..3 their signal draws; signal series of other cells do not change.
   */
  method GenerationLoop(traffic0: map<Generation, real>, signal0: map<(Generation, int), real>, d: MobileDraws)
    returns (traffic: map<Generation, real>, signal: map<(Generation, int), real>)
    requires MobileDrawsOk(d)
    ensures forall g :: g in traffic && traffic[g] == d.traffic[g]
    ensures forall g, c :: 1 <= c <= CellCount ==> (g, c) in signal && signal[(g, c)] == d.signal[(g, c)]
    ensures forall g, c :: !(1 <= c <= CellCount) ==> Agree(signal, signal0, (g, c))
  {
    traffic, signal := traffic0, signal0;
    assert Distinct(Generations);
    var i := 0;
    while i < |Generations|
      invariant 0 <= i <= |Generations|
      invariant forall g :: g in Generations[..i] ==> g in traffic && traffic[g] == d.traffic[g]
      invariant forall g, c :: g in Generations[..i] && 1 <= c <= CellCount ==>
                  (g, c) in signal && signal[(g, c)] == d.signal[(g, c)]
      invariant forall g, c :: !(g in Generations[..i] && 1 <= c <= CellCount) ==> ((g, c) in signal <==> (g, c) in signal0)
      invariant forall g, c :: !(g in Generations[..i] && 1 <= c <= CellCount) && (g, c) in signal ==>
                  signal[(g, c)] == signal0[(g, c)]
    {
      var g := Generations[i];
      assert Generations[..i + 1] == Generations[..i] + [g];
      traffic := traffic[g := d.traffic[g]];
      signal := CellLoop(signal, g, d);
      i := i + 1;
    }
    GenerationsComplete();
    assert Generations[..i] == Generations;
  }

  /** `for result in handover_results`: a taken branch grows its counter by the drawn amount. */
  method HandoverLoop(handovers0: map<HandoverResult, int>, d: MobileDraws) returns (handovers: map<HandoverResult, int>)
    requires MobileDrawsOk(d)
    ensures forall r :: Get(handovers, r, 0) == Get(handovers0, r, 0) + HandoverIncrement(d.handovers[r])
  {
    handovers := handovers0;
    assert Distinct(HandoverResults);
    var i := 0;
    while i < |HandoverResults|
      invariant 0 <= i <= |HandoverResults|
      invariant forall r :: Get(handovers, r, 0) ==
                  Get(handovers0, r, 0) + (if r in HandoverResults[..i] then HandoverIncrement(d.handovers[r]) else 0)
    {
      var r := HandoverResults[i];
      assert HandoverResults[..i + 1] == HandoverResults[..i] + [r];
      if d.handovers[r].Some? {
        handovers := Inc(handovers, r, d.handovers[r].value);
      }
      i := i + 1;
    }
    HandoverResultsComplete();
    assert HandoverResults[..i] == HandoverResults;
  }

  /** `DIAMETER_REQUESTS`, `DIAMETER_LATENCY`, `DIAMETER_ERRORS`, `DIAMETER_ACTIVE_SESSIONS`. */
  datatype DiameterSeries = DiameterSeries(
    requests: map<RequestType, int>,
    latency: map<RequestType, real>,
    errors: map<DiameterError, int>,
    activeSessions: map<Application, int>)

  /** `VOIP_CALLS_ACTIVE`, `VOIP_CALL_QUALITY`, `VOIP_JITTER`, `VOIP_PACKET_LOSS`, `VOIP_CALL_SETUP_TIME`. */
  datatype VoipSeries = VoipSeries(
    activeCalls: real,
    quality: map<Codec, real>,
    jitter: map<Codec, real>,
    packetLoss: map<Codec, real>,
    callSetupTime: map<Codec, seq<real>>)

  /** `IPSEC_TUNNELS`, `IPSEC_BANDWIDTH`, `IPSEC_LATENCY`, `IPSEC_CRYPTO_ERRORS`. */
  datatype IpsecSeries = IpsecSeries(
    tunnels: map<TunnelState, int>,
    bandwidth: map<int, real>,
    latency: map<int, real>,
    cryptoErrors: map<CryptoError, int>)

  /** `MOBILE_SUBSCRIBERS`, `MOBILE_DATA_TRAFFIC`, `MOBILE_SIGNAL_QUALITY`, `MOBILE_HANDOVERS`. */
  datatype MobileSeries = MobileSeries(
    subscribers: map<SubscriberType, int>,
    dataTraffic: map<Generation, real>,
    signalQuality: map<(Generation, int), real>,
    handovers: map<HandoverResult, int>)

  /** Counters and session gauges are never negative; every latency written lies in [20, 300]. */
  ghost predicate DiameterBounds(m: DiameterSeries)
  {
    && (forall t :: Get(m.requests, t, 0) >= 0)
    && (forall t :: t in m.latency ==> 20.0 <= m.latency[t] <= 300.0)
    && (forall e :: Get(m.errors, e, 0) >= 0)
    && (forall a :: Get(m.activeSessions, a, 0) >= 0)
  }

  /** Every VoIP series written lies in the range of the draws that feed it. */
  ghost predicate VoipBounds(m: VoipSeries)
  {
    && 0.0 <= m.activeCalls <= 500.0
    && (forall c :: c in m.quality ==> 3.0 <= m.quality[c] <= 4.8)
    && (forall c :: c in m.jitter ==> 5.0 <= m.jitter[c] <= 60.0)
    && (forall c :: c in m.packetLoss ==> 0.0 <= m.packetLoss[c] <= 5.0)
    && (forall c :: AllWithin(Get(m.callSetupTime, c, []), 50.0, 2000.0))
  }

  /** Tunnel and error counts are never negative; bandwidth and latency lie in their draw ranges. */
  ghost predicate IpsecBounds(m: IpsecSeries)
  {
    && (forall s :: Get(m.tunnels, s, 0) >= 0)
    && (forall k :: k in m.bandwidth ==> 5.0 <= m.bandwidth[k] <= 100.0)
    && (forall k :: k in m.latency ==> 10.0 <= m.latency[k] <= 150.0)
    && (forall e :: Get(m.cryptoErrors, e, 0) >= 0)
  }

  /** Subscriber and handover counts are never negative; traffic and signal lie in their draw ranges. */
  ghost predicate MobileBounds(m: MobileSeries)
  {
    && (forall s :: Get(m.subscribers, s, 0) >= 0)
    && (forall g :: g in m.dataTraffic ==> 0.5 <= m.dataTraffic[g] <= 20.0)
    && (forall k :: k in m.signalQuality ==> 40.0 <= m.signalQuality[k] <= 95.0)
    && (forall r :: Get(m.handovers, r, 0) >= 0)
  }

  /** Consecutive Diameter totals rise by 4..80, and the newest is the current counter sum. */
  ghost predicate DiameterHistoryValid(totals: seq<int>, m: DiameterSeries)
  {
    && Gaps(totals, 4, 80)
    && (totals != [] ==> totals[|totals| - 1] == TotalRequests(m.requests))
  }

  /** Every call count is in [0, 500], and the newest is the current gauge. */
  ghost predicate VoipHistoryValid(calls: seq<real>, m: VoipSeries)
  {
    && (calls != [] ==> calls[|calls| - 1] == m.activeCalls)
    && (forall i :: 0 <= i < |calls| ==> 0.0 <= calls[i] <= 500.0)
  }

  ghost predicate IpsecHistoryValid(totals: seq<int>)
  {
    forall i :: 0 <= i < |totals| ==> 10 <= totals[i] <= 58
  }

  ghost predicate MobileHistoryValid(totals: seq<int>)
  {
    forall i :: 0 <= i < |totals| ==> totals[i] >= 0
  }

  // ---------------------------------------------------------------------------
  // What one call of each generator does to its instruments

  /** `generate_diameter_metrics` took `m0` to `m` with the draws `d`. */
  ghost predicate DiameterAdvanced(m0: DiameterSeries, d: DiameterDraws, m: DiameterSeries)
    requires DiameterDrawsOk(d)
  {
    && (forall t :: Get(m.requests, t, 0) == Get(m0.requests, t, 0) + d.increments[t])
    && (forall t :: t in m.latency && m.latency[t] == d.latencies[t])
    && m.errors == (if d.error.Some? then Inc(m0.errors, d.error.value, 1) else m0.errors)
    && (forall a :: Get(m.activeSessions, a, 0) == NextSessions(Get(m0.activeSessions, a, 0), d.sessionChanges[a]))
  }

  /**
    One Diameter pass keeps every counter and session gauge non-negative and
    every latency in range, and raises the request total by 4..80.
   */
  lemma DiameterAdvancedKeepsBounds(m0: DiameterSeries, d: DiameterDraws, m: DiameterSeries)
    requires DiameterDrawsOk(d) && DiameterBounds(m0) && DiameterAdvanced(m0, d, m)
    ensures DiameterBounds(m)
    ensures 4 <= TotalRequests(m.requests) - TotalRequests(m0.requests) <= 80
  {
    forall e ensures Get(m.errors, e, 0) >= 0 {
      if d.error.Some? && e == d.error.value {
        assert Get(m.errors, e, 0) == Get(m0.errors, e, 0) + 1;
      }
    }
  }

  /** `generate_voip_metrics` took `m0` to `m` with the draws `d`. */
  ghost predicate VoipAdvanced(m0: VoipSeries, d: VoipDraws, m: VoipSeries)
    requires VoipDrawsOk(d)
  {
    && m.activeCalls == NextVoipCalls(m0.activeCalls, d.trend)
    && (forall c :: c in m.quality && m.quality[c] == d.mos[c])
    && (forall c :: c in m.jitter && m.jitter[c] == d.jitter[c])
    && (forall c :: c in m.packetLoss && m.packetLoss[c] == d.loss[c])
    && (forall c :: Get(m.callSetupTime, c, []) == Get(m0.callSetupTime, c, []) + [d.setupTime[c]])
  }

  /** One VoIP pass keeps every series within the range of its draws. */
  lemma VoipAdvancedKeepsBounds(m0: VoipSeries, d: VoipDraws, m: VoipSeries)
    requires VoipDrawsOk(d) && VoipBounds(m0) && VoipAdvanced(m0, d, m)
    ensures VoipBounds(m)
  {
    forall c ensures AllWithin(Get(m.callSetupTime, c, []), 50.0, 2000.0) {
      assert Get(m.callSetupTime, c, []) == Get(m0.callSetupTime, c, []) + [d.setupTime[c]];
    }
  }

  /** `generate_ipsec_metrics` took `m0` to `m` with the draws `d`. */
  ghost predicate IpsecAdvanced(m0: IpsecSeries, d: IpsecDraws, m: IpsecSeries)
    requires IpsecDrawsOk(d)
  {
    && (forall j :: 0 <= j < |TunnelStates| ==> TunnelStates[j] in m.tunnels && m.tunnels[TunnelStates[j]] == d.counts[j])
    && (forall k :: FirstTunnel <= k <= LastTunnel ==>
          k in m.bandwidth && m.bandwidth[k] == d.bandwidth[k] && k in m.latency && m.latency[k] == d.latency[k])
    && (forall k :: !(FirstTunnel <= k <= LastTunnel) ==> Agree(m.bandwidth, m0.bandwidth, k) && Agree(m.latency, m0.latency, k))
    && m.cryptoErrors == (if d.cryptoError.Some? then Inc(m0.cryptoErrors, d.cryptoError.value, 1) else m0.cryptoErrors)
  }

  /** One IPsec pass keeps every count non-negative and bandwidth and latency in range. */
  lemma IpsecAdvancedKeepsBounds(m0: IpsecSeries, d: IpsecDraws, m: IpsecSeries)
    requires IpsecDrawsOk(d) && IpsecBounds(m0) && IpsecAdvanced(m0, d, m)
    ensures IpsecBounds(m)
  {
    forall s ensures Get(m.tunnels, s, 0) >= 0 {
      match s
      case Established => assert s == TunnelStates[0];
      case Connecting => assert s == TunnelStates[1];
      case Failed => assert s == TunnelStates[2];
    }
    forall k | k in m.bandwidth ensures 5.0 <= m.bandwidth[k] <= 100.0 {
      if !(FirstTunnel <= k <= LastTunnel) {
        assert Agree(m.bandwidth, m0.bandwidth, k);
      }
    }
    forall k | k in m.latency ensures 10.0 <= m.latency[k] <= 150.0 {
      if !(FirstTunnel <= k <= LastTunnel) {
        assert Agree(m.latency, m0.latency, k);
      }
    }
    forall e ensures Get(m.cryptoErrors, e, 0) >= 0 {
      if d.cryptoError.Some? && e == d.cryptoError.value {
        assert Get(m.cryptoErrors, e, 0) == Get(m0.cryptoErrors, e, 0) + 1;
      }
    }
  }

  /** `generate_mobile_metrics` took `m0` to `m` with the draws `d`. */
  ghost predicate MobileAdvanced(m0: MobileSeries, d: MobileDraws, m: MobileSeries)
    requires MobileDrawsOk(d)
  {
    && (forall s :: Get(m.subscribers, s, 0) == NextSubscribers(Get(m0.subscribers, s, 0), d.subscriberChanges[s]))
    && (forall g :: g in m.dataTraffic && m.dataTraffic[g] == d.traffic[g])
    && (forall g, c :: 1 <= c <= CellCount ==> (g, c) in m.signalQuality && m.signalQuality[(g, c)] == d.signal[(g, c)])
    && (forall g, c :: !(1 <= c <= CellCount) ==> Agree(m.signalQuality, m0.signalQuality, (g, c)))
    && (forall r :: Get(m.handovers, r, 0) == Get(m0.handovers, r, 0) + HandoverIncrement(d.handovers[r]))
  }

  /** One mobile pass keeps every count non-negative, traffic and signal in range, and the subscriber total non-negative. */
  lemma MobileAdvancedKeepsBounds(m0: MobileSeries, d: MobileDraws, m: MobileSeries)
    requires MobileDrawsOk(d) && MobileBounds(m0) && MobileAdvanced(m0, d, m)
    ensures MobileBounds(m)
    ensures TotalSubscribers(m.subscribers) >= 0
  {
    forall k | k in m.signalQuality ensures 40.0 <= m.signalQuality[k] <= 95.0 {
      if !(1 <= k.1 <= CellCount) {
        assert Agree(m.signalQuality, m0.signalQuality, (k.0, k.1));
      }
    }
  }

  // ---------------------------------------------------------------------------
  // The four generators, each from the instruments it writes and the history
  // to their new values

  /**
    `generate_diameter_metrics`: every request counter grows by its draw and
    every latency gauge takes its draw, at most one error counter grows by 1,
    every session gauge takes a step, and the new request total, 4..80 above
    the previous one, is appended to the history.
   */
  method GenerateDiameterMetrics(m: DiameterSeries, h: History, d: DiameterDraws) returns (m': DiameterSeries, h': History)
    requires DiameterDrawsOk(d) && DiameterBounds(m) && WellFormed(h) && DiameterHistoryValid(h.diameterRequests, m)
    ensures DiameterAdvanced(m, d, m')
    ensures h' == RecordDiameter(h, TotalRequests(m'.requests))
    ensures DiameterBounds(m') && DiameterHistoryValid(h'.diameterRequests, m')
  {
    var requests, latency := RequestLoop(m.requests, m.latency, d);
    var errors := m.errors;
    if d.error.Some? {
      errors := Inc(errors, d.error.value, 1);
    }
    var sessions := SessionLoop(m.activeSessions, d);
    m' := DiameterSeries(requests, latency, errors, sessions);
    var total := TotalRequests(requests);
    assert DiameterAdvanced(m, d, m');
    DiameterAdvancedKeepsBounds(m, d, m');
    PushKeepsGaps(h.diameterRequests, total, 4, 80);
    h' := RecordDiameter(h, total);
  }

  /**
    `generate_voip_metrics`: the active-call gauge takes a clamped step, the
    timestamp and the new call count are appended together (the oldest of
    both dropped when full), and every codec's quality gauges take fresh
    draws while its setup-time histogram gets one observation.
   */
  method GenerateVoipMetrics(m: VoipSeries, h: History, now: real, d: VoipDraws) returns (m': VoipSeries, h': History)
    requires VoipDrawsOk(d) && VoipBounds(m) && WellFormed(h) && VoipHistoryValid(h.voipCalls, m)
    ensures VoipAdvanced(m, d, m')
    ensures h' == RecordVoip(h, now, m'.activeCalls)
    ensures VoipBounds(m') && VoipHistoryValid(h'.voipCalls, m')
  {
    // `current or 0` reads a stored 0.0 as 0, so it is the stored value itself.
    var calls := NextVoipCalls(m.activeCalls, d.trend);
    h' := RecordVoip(h, now, calls);
    var quality, jitter, loss, setup := CodecLoop(m.quality, m.jitter, m.packetLoss, m.callSetupTime, d);
    m' := VoipSeries(calls, quality, jitter, loss, setup);
    assert VoipAdvanced(m, d, m');
    VoipAdvancedKeepsBounds(m, d, m');
    PushKeepsWithin(h.voipCalls, calls, 0.0, 500.0);
  }

  /**
    `generate_ipsec_metrics`: the per-state tunnel gauges take the three drawn
    counts, their sum is appended to the history only while that list is
    behind the timestamps, tunnels 1..5 get fresh bandwidth and latency, and
    at most one crypto-error counter grows by 1.
   */
  method GenerateIpsecMetrics(m: IpsecSeries, h: History, d: IpsecDraws) returns (m': IpsecSeries, h': History)
    requires IpsecDrawsOk(d) && IpsecBounds(m) && WellFormed(h) && IpsecHistoryValid(h.ipsecTunnels)
    ensures IpsecAdvanced(m, d, m')
    ensures h' == RecordIpsec(h, TunnelTotal(d.counts))
    ensures IpsecBounds(m') && IpsecHistoryValid(h'.ipsecTunnels)
  {
    var tunnels := TunnelStateLoop(m.tunnels, d.counts);
    var total := TunnelTotal(d.counts);
    h' := RecordIpsec(h, total);
    var bandwidth, latency := TunnelLoop(m.bandwidth, m.latency, d);
    var cryptoErrors := m.cryptoErrors;
    if d.cryptoError.Some? {
      cryptoErrors := Inc(cryptoErrors, d.cryptoError.value, 1);
    }
    m' := IpsecSeries(tunnels, bandwidth, latency, cryptoErrors);
    assert IpsecAdvanced(m, d, m');
    IpsecAdvancedKeepsBounds(m, d, m');
    PushBehindKeepsWithin(h.ipsecTunnels, total, |h.timestamp|, 10, 58);
  }

  /**
    `generate_mobile_metrics`: every subscriber gauge takes a step that keeps
    it non-negative, traffic and signal quality take fresh draws, the taken
    handover branches grow their counters, and the subscriber total is
    appended to the history only while that list is behind the timestamps.
   */
  method GenerateMobileMetrics(m: MobileSeries, h: History, d: MobileDraws) returns (m': MobileSeries, h': History)
    requires MobileDrawsOk(d) && MobileBounds(m) && WellFormed(h) && MobileHistoryValid(h.mobileSubscribers)
    ensures MobileAdvanced(m, d, m')
    ensures h' == RecordMobile(h, TotalSubscribers(m'.subscribers))
    ensures MobileBounds(m') && MobileHistoryValid(h'.mobileSubscribers)
  {
    var subscribers := SubscriberLoop(m.subscribers, d);
    var traffic, signal := GenerationLoop(m.dataTraffic, m.signalQuality, d);
    var handovers := HandoverLoop(m.handovers, d);
    m' := MobileSeries(subscribers, traffic, signal, handovers);
    var total := TotalSubscribers(subscribers);
    assert MobileAdvanced(m, d, m');
    MobileAdvancedKeepsBounds(m, d, m');
    PushBehindKeepsAtLeast(h.mobileSubscribers, total, |h.timestamp|, 0);
    h' := RecordMobile(h, total);
  }

  // ---------------------------------------------------------------------------
  // The process: its metric registry, one group of instruments per protocol,
  // and `metrics_history`

  /** Everything the simulator process keeps between passes. */
  datatype State = State(diameter: DiameterSeries, voip: VoipSeries, ipsec: IpsecSeries, mobile: MobileSeries,
                         history: History)

  /** The state at process start: no series written yet, every history list empty. */
  const Initial: State := State(DiameterSeries(map[], map[], map[], map[]), VoipSeries(0.0, map[], map[], map[], map[]),
                                IpsecSeries(map[], map[], map[], map[]), MobileSeries(map[], map[], map[], map[]), Empty)

  /**
    What every pass keeps true: each series within its bounds, the history
    well formed, consecutive Diameter totals 4..80 apart with the newest equal
    to the current counter sum, the newest call count equal to the gauge, and
    every recorded aggregate within its range.
   */
  ghost predicate Consistent(s: State)
  {
    && DiameterBounds(s.diameter) && VoipBounds(s.voip) && IpsecBounds(s.ipsec) && MobileBounds(s.mobile)
    && WellFormed(s.history)
    && DiameterHistoryValid(s.history.diameterRequests, s.diameter)
    && VoipHistoryValid(s.history.voipCalls, s.voip)
    && IpsecHistoryValid(s.history.ipsecTunnels)
    && MobileHistoryValid(s.history.mobileSubscribers)
  }

  lemma InitialConsistent()
    ensures Consistent(Initial)
  {
  }

  /**
    One pass of `generate_metrics` took `s0` to `s` at time `now` with the
    draws `d`: every group of instruments advanced with its draws, and the
    history gained exactly the point this pass produced.
   */
  ghost predicate Ticked(s0: State, now: real, d: TickDraws, s: State)
    requires TickDrawsOk(d) && WellFormed(s0.history)
  {
    && DiameterAdvanced(s0.diameter, d.diameter, s.diameter)
    && VoipAdvanced(s0.voip, d.voip, s.voip)
    && IpsecAdvanced(s0.ipsec, d.ipsec, s.ipsec)
    && MobileAdvanced(s0.mobile, d.mobile, s.mobile)
    && s.history == RecordTick(s0.history, TickPoint(now, d, s))
  }

  /** The point a pass that ends in `s` appends to `metrics_history`. */
  function TickPoint(now: real, d: TickDraws, s: State): Point
    requires TickDrawsOk(d)
  {
    Point(TotalRequests(s.diameter.requests), now, s.voip.activeCalls,
          TunnelTotal(d.ipsec.counts), TotalSubscribers(s.mobile.subscribers))
  }

  /** The body of the `generate_metrics` loop: the four generators in order. */
  method Tick(s: State, now: real, d: TickDraws) returns (s': State)
    requires Consistent(s) && TickDrawsOk(d)
    ensures Consistent(s') && Ticked(s, now, d, s')
  {
    var diameter, h1 := GenerateDiameterMetrics(s.diameter, s.history, d.diameter);
    var voip, h2 := GenerateVoipMetrics(s.voip, h1, now, d.voip);
    var ipsec, h3 := GenerateIpsecMetrics(s.ipsec, h2, d.ipsec);
    var mobile, h4 := GenerateMobileMetrics(s.mobile, h3, d.mobile);
    s' := State(diameter, voip, ipsec, mobile, h4);
  }

  /**
    The simulator process: the module-level instruments and `metrics_history`
    that the background thread's passes update in place.
   */
  class Simulator {
    var state: State

    ghost predicate Valid()
      reads this
    {
      Consistent(state)
    }

    /** Process start. */
    constructor ()
      ensures Valid() && state == Initial
    {
      state := Initial;
      InitialConsistent();
    }

    /** One pass of the `generate_metrics` loop, at time `now`. */
    method GenerateMetrics(now: real, d: TickDraws)
      requires Valid() && TickDrawsOk(d)
      modifies this
      ensures Valid() && Ticked(old(state), now, d, state)
    {
      state := Tick(state, now, d);
    }
  }

  // ---------------------------------------------------------------------------
  // Dashboard API

  /** The `simulator` entry of `/api/status`. */
  datatype SimulatorStatus = SimulatorStatus(status: string, uptime: string, metricsCount: nat)

  /** `get_status`: `metrics_count` is the length of the timestamp list. */
  function GetStatus(h: History): (s: SimulatorStatus)
    requires WellFormed(h)
    ensures s.metricsCount == |h.timestamp| == |h.voipCalls|
    ensures s.metricsCount <= MaxHistorySize
    ensures s.status == "active"
  {
    SimulatorStatus("active", "00:00:00", |h.timestamp|)
  }

  /** A pass appends exactly its own point to `metrics_history`. */
  lemma TickRecords(s0: State, now: real, d: TickDraws, s: State) returns (p: Point)
    requires TickDrawsOk(d) && WellFormed(s0.history) && Ticked(s0, now, d, s)
    ensures s.history == RecordTick(s0.history, p) && p.time == now
  {
    p := TickPoint(now, d, s);
  }

  /**
    A run of n passes from process start: `ss` are the successive states,
    `nows` the times and `ds` the draws of the passes.
   */
  ghost predicate Run(ss: seq<State>, nows: seq<real>, ds: seq<TickDraws>)
    decreases |ds|
  {
    && |ss| == |ds| + 1 && |nows| == |ds| && WellFormed(ss[|ds|].history)
    && if ds == [] then ss[0] == Initial
       else
         var n := |ds| - 1;
         && TickDrawsOk(ds[n]) && Run(ss[..n + 1], nows[..n], ds[..n])
         && Ticked(ss[n], nows[n], ds[n], ss[n + 1])
  }

  /**
    The history a run of passes leaves is `Replay` of the points those passes
    recorded, the i-th point carrying the i-th time.
   */
  lemma {:induction false} TicksReplay(ss: seq<State>, nows: seq<real>, ds: seq<TickDraws>) returns (ps: seq<Point>)
    requires Run(ss, nows, ds)
    ensures |ps| == |ds| && ss[|ds|].history == Replay(ps)
    ensures Column(ps, TimeOf) == nows
    decreases |ds|
  {
    if ds == [] {
      ps := [];
    } else {
      var n := |ds| - 1;
      var init := TicksReplay(ss[..n + 1], nows[..n], ds[..n]);
      assert ss[..n + 1][n] == ss[n];
      var p := TickRecords(ss[n], nows[n], ds[n], ss[n + 1]);
      ReplayAppend(init, p);
      FrontLast(nows);
      ps := init + [p];
    }
  }

  /**
    After a run of n passes, `metrics_count` is min(n, MAX_HISTORY_SIZE), and
    the timestamp list holds the times of the last min(n, MAX_HISTORY_SIZE)
    passes, oldest first.
   */
  lemma MetricsCountAfterPasses(ss: seq<State>, nows: seq<real>, ds: seq<TickDraws>)
    requires Run(ss, nows, ds)
    ensures GetStatus(ss[|ds|].history).metricsCount == if |ds| <= MaxHistorySize then |ds| else MaxHistorySize
    ensures ss[|ds|].history.timestamp == Window(nows)
  {
    var ps := TicksReplay(ss, nows, ds);
    ReplayLengths(ps);
    ReplayWindow(ps);
  }

  /**
    The body of `POST /api/control`: a JSON object, whose values are given as
    the text Python's f-string renders for them, or a body on which the key
    tests raise (`Unreadable`, with the exception's text).
   */
  datatype ControlBody = JsonObject(fields: map<string, string>) | Unreadable(reason: string)

  datatype ControlResponse = ControlResponse(status: string, message: string)

  /**
    `control_simulator`: the message echoes the last present key in the order
    `voip_call_rate`, `error_rate`, `simulation_mode`; without any of them it
    stays "Settings updated"; nothing in the simulation changes.
   */
  function ControlSimulator(body: ControlBody): (r: ControlResponse)
    ensures r.status == "success" <==> body.JsonObject?
    ensures body.Unreadable? ==> r == ControlResponse("error", body.reason)
    ensures body.JsonObject? && "simulation_mode" in body.fields ==>
              r.message == "Simulation mode set to " + body.fields["simulation_mode"]
    ensures body.JsonObject? && "simulation_mode" !in body.fields && "error_rate" in body.fields ==>
              r.message == "Error rate set to " + body.fields["error_rate"] + "%"
    ensures body.JsonObject? && "simulation_mode" !in body.fields && "error_rate" !in body.fields &&
            "voip_call_rate" in body.fields ==>
              r.message == "VoIP call rate set to " + body.fields["voip_call_rate"]
    ensures body.JsonObject? && "simulation_mode" !in body.fields && "error_rate" !in body.fields &&
            "voip_call_rate" !in body.fields ==>
              r.message == "Settings updated"
  {
    match body
    case Unreadable(reason) => ControlResponse("error", reason)
    case JsonObject(data) =>
      var response := ControlResponse("success", "Settings updated");
      var response := if "voip_call_rate" in data
        then response.(message := "VoIP call rate set to " + data["voip_call_rate"]) else response;
      var response := if "error_rate" in data
        then response.(message := "Error rate set to " + data["error_rate"] + "%") else response;
      var response := if "simulation_mode" in data
        then response.(message := "Simulation mode set to " + data["simulation_mode"]) else response;
      response
  }
}
