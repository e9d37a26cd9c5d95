/**
  The Diameter exporter of `exporters/diameter/app.py`: a background thread
  that seeds the active-session gauge of every request type once and then,
  pass after pass, handles 5 to 20 requests (each counted, timed, and
  answered or failed), walks the session counts while recording the
  durations of ended sessions, and sets a fresh transaction rate per type.

  The values the thread draws from `random` are parameters (`SeedDraws`,
  `PassDraws`) whose `...Ok` predicates state the ranges of `randint`,
  `uniform` and `choice`; the 10% error branch is the `Outcome` of a request.
 */
module DiameterExporter {
  import opened Telemetry

  // ---------------------------------------------------------------------------
  // Label catalogs

  datatype RequestType = Ccr | Aar | Rar | Str | Asr | Dwr | Dpr | Ulr | Air
  const RequestTypes: seq<RequestType> := [Ccr, Aar, Rar, Str, Asr, Dwr, Dpr, Ulr, Air]

  function RequestTypeIndex(k: RequestType): (i: nat)
    ensures i < |RequestTypes| && RequestTypes[i] == k
  {
    match k
    case Ccr => 0
    case Aar => 1
    case Rar => 2
    case Str => 3
    case Asr => 4
    case Dwr => 5
    case Dpr => 6
    case Ulr => 7
    case Air => 8
  }

  /** The result codes a response may carry; its `result_code` label is the code's decimal text. */
  const ResultCodes: seq<int> := [2001, 2002, 2003, 3001, 3002, 3003, 4001, 4002, 4003, 5001, 5002, 5003]

  datatype ErrorType = Timeout | AuthenticationFailed | UnknownSession | NetworkError | ProtocolError
  const ErrorTypes: seq<ErrorType> := [Timeout, AuthenticationFailed, UnknownSession, NetworkError, ProtocolError]

  function ErrorTypeIndex(e: ErrorType): (i: nat)
    ensures i < |ErrorTypes| && ErrorTypes[i] == e
  {
    match e
    case Timeout => 0
    case AuthenticationFailed => 1
    case UnknownSession => 2
    case NetworkError => 3
    case ProtocolError => 4
  }

  /** mme01, pcrf02, hss03 and dra01, all under example.com. */
  datatype OriginHost = Mme01 | Pcrf02 | Hss03 | Dra01
  const OriginHosts: seq<OriginHost> := [Mme01, Pcrf02, Hss03, Dra01]

  function OriginHostIndex(h: OriginHost): (i: nat)
    ensures i < |OriginHosts| && OriginHosts[i] == h
  {
    match h
    case Mme01 => 0
    case Pcrf02 => 1
    case Hss03 => 2
    case Dra01 => 3
  }

  lemma RequestTypePositions()
    ensures Positions(RequestTypes, RequestTypeIndex)
  {
  }

  /** Each catalog lists its labels once, so a sum over it counts every series once. */
  lemma CatalogsDistinct()
    ensures Distinct(RequestTypes) && Distinct(ErrorTypes) && Distinct(OriginHosts) && Distinct(ResultCodes)
  {
    PositionsDistinct(RequestTypes, RequestTypeIndex);
    PositionsDistinct(ErrorTypes, ErrorTypeIndex);
    PositionsDistinct(OriginHosts, OriginHostIndex);
    forall i | 0 <= i < |ResultCodes| ensures ResultCodes[i] !in ResultCodes[..i] {
      forall j | 0 <= j < i ensures ResultCodes[j] < ResultCodes[i] {
      }
    }
  }

  // ---------------------------------------------------------------------------
  // The instruments

  /** The four instruments the request loop writes. */
  datatype Traffic = Traffic(
    requests: map<(RequestType, OriginHost), int>,
    responses: map<(RequestType, int), int>,
    latency: map<RequestType, seq<real>>,
    errors: map<(ErrorType, OriginHost), int>)

  /**
    The exporter's instruments.  `sessions` is the active-session gauge,
    whose values are whole numbers since every value written to it is one;
    a type missing from it is a series never written, which reads 0 like
    every other unwritten gauge child.  The timeout counter is registered
    but never written.
   */
  datatype Registry = Registry(
    traffic: Traffic,
    timeouts: map<RequestType, int>,
    sessions: map<RequestType, int>,
    sessionDuration: map<RequestType, seq<real>>,
    transactionsRate: map<RequestType, real>)

  /** Every instrument registered and no series written. */
  const Fresh := Registry(Traffic(map[], map[], map[], map[]), map[], map[], map[], map[])

  ghost predicate TrafficBounded(tr: Traffic)
  {
    && (forall k, h :: Get(tr.requests, (k, h), 0) >= 0)
    && (forall k, c :: Get(tr.responses, (k, c), 0) >= 0)
    && (forall e, h :: Get(tr.errors, (e, h), 0) >= 0)
    && (forall k :: AllWithin(Get(tr.latency, k, []), 0.001, 0.5))
  }

  /** The ranges every series stays in. */
  ghost predicate Bounded(r: Registry)
  {
    && TrafficBounded(r.traffic)
    && (forall k :: Get(r.timeouts, k, 0) >= 0)
    && (forall k :: k in r.sessions ==> r.sessions[k] >= 0)
    && (forall k :: AllWithin(Get(r.sessionDuration, k, []), 10.0, 7200.0))
    && (forall k :: k in r.transactionsRate ==> 5.0 <= r.transactionsRate[k] <= 200.0)
  }

  lemma FreshBounded()
    ensures Bounded(Fresh)
  {
  }

  // ---------------------------------------------------------------------------
  // Seeding

  /** The seeding draws: `randint(10, 1000)` sessions per request type. */
  datatype SeedDraws = SeedDraws(sessions: map<RequestType, int>)

  predicate SeedDrawsOk(d: SeedDraws)
  {
    forall k :: k in d.sessions && 10 <= d.sessions[k] <= 1000
  }

  /** The seeding took `r0` to `r`: every session gauge holds its draw and nothing else changed. */
  ghost predicate Seeded(r0: Registry, d: SeedDraws, r: Registry)
    requires SeedDrawsOk(d)
  {
    && (forall k :: k in r.sessions && r.sessions[k] == d.sessions[k])
    && r.traffic == r0.traffic && r.timeouts == r0.timeouts
    && r.sessionDuration == r0.sessionDuration && r.transactionsRate == r0.transactionsRate
  }

  /** `for req_type in request_types`: every session gauge is set to its draw. */
  method SeedMetrics(r: Registry, d: SeedDraws) returns (r': Registry)
    requires SeedDrawsOk(d) && Bounded(r)
    ensures Seeded(r, d, r') && Bounded(r')
  {
    RequestTypePositions();
    var sessions := r.sessions;
    var i := 0;
    while i < |RequestTypes|
      invariant 0 <= i <= |RequestTypes|
      invariant SetUpTo(sessions, d.sessions, RequestTypeIndex, i)
    {
      SetUpToStep(sessions, d.sessions, RequestTypes, RequestTypeIndex, i);
      sessions := sessions[RequestTypes[i] := d.sessions[RequestTypes[i]]];
      i := i + 1;
    }
    SetAll(sessions, d.sessions, RequestTypes, RequestTypeIndex);
    r' := r.(sessions := sessions);
  }

  /**
    After seeding every type has a stored session count in [10, 1000], so
    every pass steps each type from its seeded or previously stepped count.
   */
  lemma SeededSessions(r0: Registry, d: SeedDraws, r: Registry)
    requires SeedDrawsOk(d) && Seeded(r0, d, r)
    ensures forall k :: k in r.sessions && 10 <= r.sessions[k] <= 1000
  {
  }

  // ---------------------------------------------------------------------------
  // Requests

  /** A request either fails with an error (10%) and gets no response, or is answered with a result code. */
  datatype Outcome = Failed(error: ErrorType) | Answered(code: int)

  /** The draws of one request: its type, origin host, latency and outcome. */
  datatype Request = Request(kind: RequestType, host: OriginHost, latency: real, outcome: Outcome)

  predicate RequestOk(q: Request)
  {
    0.001 <= q.latency <= 0.5 && (q.outcome.Answered? ==> q.outcome.code in ResultCodes)
  }

  /**
    Handling one request: its request counter grows by 1, its latency is
    observed under its type, and either the error counter of its error
    and host or the response counter of its type and code grows by 1.
   */
  function Handle(tr: Traffic, q: Request): Traffic
  {
    var tr' := tr.(requests := Inc(tr.requests, (q.kind, q.host), 1),
                   latency := Observe(tr.latency, q.kind, q.latency));
    match q.outcome
    case Failed(e) => tr'.(errors := Inc(tr'.errors, (e, q.host), 1))
    case Answered(c) => tr'.(responses := Inc(tr'.responses, (q.kind, c), 1))
  }

  /** The traffic instruments after handling the requests `qs` in order. */
  function Handled(tr: Traffic, qs: seq<Request>): Traffic
  {
    if qs == [] then tr else Handle(Handled(tr, qs[..|qs| - 1]), qs[|qs| - 1])
  }

  /** `for _ in range(randint(5, 20))`: the requests of one pass, in order. */
  method RequestLoop(tr0: Traffic, qs: seq<Request>) returns (tr: Traffic)
    ensures tr == Handled(tr0, qs)
  {
    tr := tr0;
    var j := 0;
    while j < |qs|
      invariant 0 <= j <= |qs|
      invariant tr == Handled(tr0, qs[..j])
    {
      var q := qs[j];
      assert qs[..j + 1][..j] == qs[..j];
      tr := tr.(requests := Inc(tr.requests, (q.kind, q.host), 1));
      tr := tr.(latency := Observe(tr.latency, q.kind, q.latency));
      match q.outcome {
        case Failed(e) =>
          // No response for errors.
          tr := tr.(errors := Inc(tr.errors, (e, q.host), 1));
        case Answered(c) =>
          tr := tr.(responses := Inc(tr.responses, (q.kind, c), 1));
      }
      j := j + 1;
    }
    assert qs[..j] == qs;
  }

  /**
    Every handled request adds 1 to the request total and 1 to exactly one
    of the error total and the response total.
   */
  lemma {:induction false} HandledAccounting(tr: Traffic, qs: seq<Request>)
    requires forall i :: 0 <= i < |qs| ==> RequestOk(qs[i])
    ensures SumGrid(Handled(tr, qs).requests, RequestTypes, OriginHosts) == SumGrid(tr.requests, RequestTypes, OriginHosts) + |qs|
    ensures SumGrid(Handled(tr, qs).errors, ErrorTypes, OriginHosts) + SumGrid(Handled(tr, qs).responses, RequestTypes, ResultCodes) ==
            SumGrid(tr.errors, ErrorTypes, OriginHosts) + SumGrid(tr.responses, RequestTypes, ResultCodes) + |qs|
  {
    if qs != [] {
      var ps, q := qs[..|qs| - 1], qs[|qs| - 1];
      HandledAccounting(tr, ps);
      var h := Handled(tr, ps);
      CatalogsDistinct();
      assert q.kind in RequestTypes && q.host in OriginHosts by {
        assert RequestTypes[RequestTypeIndex(q.kind)] == q.kind;
        assert OriginHosts[OriginHostIndex(q.host)] == q.host;
      }
      SumGridInc(h.requests, RequestTypes, OriginHosts, q.kind, q.host);
      match q.outcome
      case Failed(e) =>
        assert e in ErrorTypes by {
          assert ErrorTypes[ErrorTypeIndex(e)] == e;
        }
        SumGridInc(h.errors, ErrorTypes, OriginHosts, e, q.host);
      case Answered(c) =>
        SumGridInc(h.responses, RequestTypes, ResultCodes, q.kind, c);
    }
  }

  /**
    Handled requests add one latency observation, in [0.001, 0.5], under
    their own type: as many to a type's histogram as to its request row.
   */
  lemma {:induction false} HandledTimed(tr: Traffic, qs: seq<Request>)
    requires forall i :: 0 <= i < |qs| ==> RequestOk(qs[i])
    requires forall k :: AllWithin(Get(tr.latency, k, []), 0.001, 0.5)
    ensures forall k :: |Get(Handled(tr, qs).latency, k, [])| - |Get(tr.latency, k, [])| ==
                        SumRow(Handled(tr, qs).requests, k, OriginHosts) - SumRow(tr.requests, k, OriginHosts)
    ensures forall k :: AllWithin(Get(Handled(tr, qs).latency, k, []), 0.001, 0.5)
  {
    if qs != [] {
      var ps, q := qs[..|qs| - 1], qs[|qs| - 1];
      HandledTimed(tr, ps);
      var h := Handled(tr, ps);
      CatalogsDistinct();
      assert q.host in OriginHosts by {
        assert OriginHosts[OriginHostIndex(q.host)] == q.host;
      }
      forall k ensures |Get(Handled(tr, qs).latency, k, [])| - |Get(tr.latency, k, [])| ==
                       SumRow(Handled(tr, qs).requests, k, OriginHosts) - SumRow(tr.requests, k, OriginHosts)
      {
        SumRowInc(h.requests, k, OriginHosts, q.kind, q.host);
      }
      forall k ensures AllWithin(Get(Handled(tr, qs).latency, k, []), 0.001, 0.5) {
        if k == q.kind {
          AllWithinConcat(Get(h.latency, k, []), [q.latency], 0.001, 0.5);
        }
      }
    }
  }

  /** Handled requests keep every counter of the traffic non-negative. */
  lemma {:induction false} HandledGrows(tr: Traffic, qs: seq<Request>)
    ensures forall k, o :: Get(Handled(tr, qs).requests, (k, o), 0) >= Get(tr.requests, (k, o), 0)
    ensures forall k, c :: Get(Handled(tr, qs).responses, (k, c), 0) >= Get(tr.responses, (k, c), 0)
    ensures forall e, o :: Get(Handled(tr, qs).errors, (e, o), 0) >= Get(tr.errors, (e, o), 0)
  {
    if qs != [] {
      HandledGrows(tr, qs[..|qs| - 1]);
    }
  }

  // ---------------------------------------------------------------------------
  // Sessions and transaction rates

  /**
    The session count of type k after a pass: `max(0, current + change)`.
    A gauge child reads 0.0, never `None`, so `current is None` never holds
    and the replacement draw behind it is never taken: a stored 0 and an
    unwritten series both step from 0.
   */
  function NextSessions(sessions0: map<RequestType, int>, k: RequestType, change: int): int
  {
    MaxInt(0, Get(sessions0, k, 0) + change)
  }

  /** The number of durations observed for a change: `abs(change)` when it is negative, else none. */
  function Ended(change: int): nat
  {
    if change < 0 then -change else 0
  }

  /** The draws of one pass. */
  datatype PassDraws = PassDraws(
    requests: seq<Request>,
    changes: map<RequestType, int>,
    durations: map<RequestType, seq<real>>,
    rates: map<RequestType, real>)

  predicate PassDrawsOk(d: PassDraws)
  {
    && 5 <= |d.requests| <= 20
    && (forall i :: 0 <= i < |d.requests| ==> RequestOk(d.requests[i]))
    && (forall k :: k in d.changes && -50 <= d.changes[k] <= 50)
    && (forall k :: |Get(d.durations, k, [])| == Ended(d.changes[k]))
    && (forall k :: AllWithin(Get(d.durations, k, []), 10.0, 7200.0))
    && (forall k :: k in d.rates && 5.0 <= d.rates[k] <= 200.0)
  }

  /** Every session gauge before place i took its step; the others are as in `sessions0`. */
  ghost predicate SessionsUpTo(sessions: map<RequestType, int>, sessions0: map<RequestType, int>,
                               sds: map<RequestType, int>, i: nat)
    requires forall k :: k in sds
  {
    forall k :: if RequestTypeIndex(k) < i then k in sessions && sessions[k] == NextSessions(sessions0, k, sds[k])
                else Agree(sessions, sessions0, k)
  }

  lemma SessionsUpToStep(sessions: map<RequestType, int>, sessions0: map<RequestType, int>,
                         sds: map<RequestType, int>, i: nat)
    requires i < |RequestTypes| && forall k :: k in sds
    requires SessionsUpTo(sessions, sessions0, sds, i)
    ensures SessionsUpTo(sessions[RequestTypes[i] := NextSessions(sessions, RequestTypes[i], sds[RequestTypes[i]])],
                         sessions0, sds, i + 1)
  {
    var k0 := RequestTypes[i];
    var sessions' := sessions[k0 := NextSessions(sessions, k0, sds[k0])];
    forall k ensures if RequestTypeIndex(k) < i + 1 then k in sessions' && sessions'[k] == NextSessions(sessions0, k, sds[k])
                     else Agree(sessions', sessions0, k)
    {
      if k == k0 {
        assert RequestTypeIndex(k) == i;
      } else {
        RequestTypePositions();
        assert RequestTypeIndex(k) != i;
      }
    }
  }

  /** The body of the session loop for the type at place i. */
  method SessionStep(sessions: map<RequestType, int>, hist: map<RequestType, seq<real>>,
                     sessions0: map<RequestType, int>, hist0: map<RequestType, seq<real>>,
                     sds: map<RequestType, int>, durations: map<RequestType, seq<real>>, i: nat)
    returns (sessions': map<RequestType, int>, hist': map<RequestType, seq<real>>)
    requires i < |RequestTypes| && forall k :: k in sds
    requires forall k :: |Get(durations, k, [])| == Ended(sds[k])
    requires SessionsUpTo(sessions, sessions0, sds, i)
    requires AppendedUpTo(hist, hist0, durations, RequestTypeIndex, i)
    ensures SessionsUpTo(sessions', sessions0, sds, i + 1)
    ensures AppendedUpTo(hist', hist0, durations, RequestTypeIndex, i + 1)
  {
    RequestTypePositions();
    var k := RequestTypes[i];
    SessionsUpToStep(sessions, sessions0, sds, i);
    // `current is None` never holds: an unwritten gauge child reads 0.
    var current := Get(sessions, k, 0);
    var change := sds[k];
    sessions' := sessions[k := MaxInt(0, current + change)];
    hist' := hist;
    if change < 0 {
      hist' := ObserveAll(hist, k, Get(durations, k, []));
    } else {
      assert Get(durations, k, []) == [];
    }
    AppendedUpToStep(hist, hist', hist0, durations, RequestTypes, RequestTypeIndex, i);
  }

  /**
    `for req_type in request_types`: every session gauge takes its step, and
    a negative change records `abs(change)` durations under its type.
   */
  method SessionLoop(sessions0: map<RequestType, int>, hist0: map<RequestType, seq<real>>,
                     sds: map<RequestType, int>, durations: map<RequestType, seq<real>>)
    returns (sessions: map<RequestType, int>, hist: map<RequestType, seq<real>>)
    requires forall k :: k in sds
    requires forall k :: |Get(durations, k, [])| == Ended(sds[k])
    ensures forall k :: k in sessions && sessions[k] == NextSessions(sessions0, k, sds[k])
    ensures forall k :: Get(hist, k, []) == Get(hist0, k, []) + Get(durations, k, [])
  {
    sessions, hist := sessions0, hist0;
    var i := 0;
    while i < |RequestTypes|
      invariant 0 <= i <= |RequestTypes|
      invariant SessionsUpTo(sessions, sessions0, sds, i)
      invariant AppendedUpTo(hist, hist0, durations, RequestTypeIndex, i)
    {
      sessions, hist := SessionStep(sessions, hist, sessions0, hist0, sds, durations, i);
      i := i + 1;
    }
    RequestTypePositions();
    forall k ensures k in sessions && sessions[k] == NextSessions(sessions0, k, sds[k]) {
      assert RequestTypeIndex(k) < |RequestTypes|;
    }
    AppendedAll(hist, hist0, durations, RequestTypes, RequestTypeIndex);
  }

  /** `for req_type in request_types`: every transaction-rate gauge is set to its draw. */
  method RateLoop(rates0: map<RequestType, real>, rates: map<RequestType, real>) returns (rate: map<RequestType, real>)
    requires forall k :: k in rates
    ensures forall k :: k in rate && rate[k] == rates[k]
  {
    RequestTypePositions();
    rate := rates0;
    var i := 0;
    while i < |RequestTypes|
      invariant 0 <= i <= |RequestTypes|
      invariant SetUpTo(rate, rates, RequestTypeIndex, i)
    {
      SetUpToStep(rate, rates, RequestTypes, RequestTypeIndex, i);
      rate := rate[RequestTypes[i] := rates[RequestTypes[i]]];
      i := i + 1;
    }
    SetAll(rate, rates, RequestTypes, RequestTypeIndex);
  }

  // ---------------------------------------------------------------------------
  // One pass of the loop

  /**
    One pass took `r0` to `r`: the requests were handled in order, every
    session gauge took its step, every type's duration histogram received
    its drawn durations, every rate gauge holds its draw, and the timeout
    counter is untouched.
   */
  ghost predicate Passed(r0: Registry, d: PassDraws, r: Registry)
    requires PassDrawsOk(d)
  {
    && r.traffic == Handled(r0.traffic, d.requests)
    && r.timeouts == r0.timeouts
    && (forall k :: k in r.sessions && r.sessions[k] == NextSessions(r0.sessions, k, d.changes[k]))
    && (forall k :: Get(r.sessionDuration, k, []) == Get(r0.sessionDuration, k, []) + Get(d.durations, k, []))
    && (forall k :: k in r.transactionsRate && r.transactionsRate[k] == d.rates[k])
  }

  /** One pass of the loop: the requests, the sessions, then the transaction rates. */
  method SimulatePass(r: Registry, d: PassDraws) returns (r': Registry)
    requires PassDrawsOk(d) && Bounded(r)
    ensures Passed(r, d, r') && Bounded(r')
  {
    var traffic := RequestLoop(r.traffic, d.requests);
    var sessions, hist := SessionLoop(r.sessions, r.sessionDuration, d.changes, d.durations);
    var rate := RateLoop(r.transactionsRate, d.rates);
    r' := Registry(traffic, r.timeouts, sessions, hist, rate);
    PassKeepsBounds(r, d, r');
  }

  /** A pass keeps the registry bounded. */
  lemma PassKeepsBounds(r0: Registry, d: PassDraws, r: Registry)
    requires PassDrawsOk(d) && Bounded(r0) && Passed(r0, d, r)
    ensures Bounded(r)
  {
    HandledGrows(r0.traffic, d.requests);
    HandledTimed(r0.traffic, d.requests);
    forall k ensures AllWithin(Get(r.sessionDuration, k, []), 10.0, 7200.0) {
      AllWithinConcat(Get(r0.sessionDuration, k, []), Get(d.durations, k, []), 10.0, 7200.0);
    }
  }

  /**
    The request accounting of a pass: the request total grows by the 5 to 20
    requests handled, and the error and response totals together by as
    many; each type's latency histogram grows by its request row.
   */
  lemma PassRequests(r0: Registry, d: PassDraws, r: Registry)
    requires PassDrawsOk(d) && Bounded(r0) && Passed(r0, d, r)
    ensures var n := SumGrid(r.traffic.requests, RequestTypes, OriginHosts) - SumGrid(r0.traffic.requests, RequestTypes, OriginHosts);
            && 5 <= n <= 20
            && n == SumGrid(r.traffic.errors, ErrorTypes, OriginHosts) - SumGrid(r0.traffic.errors, ErrorTypes, OriginHosts) +
                    SumGrid(r.traffic.responses, RequestTypes, ResultCodes) - SumGrid(r0.traffic.responses, RequestTypes, ResultCodes)
    ensures forall k :: |Get(r.traffic.latency, k, [])| - |Get(r0.traffic.latency, k, [])| ==
                        SumRow(r.traffic.requests, k, OriginHosts) - SumRow(r0.traffic.requests, k, OriginHosts)
  {
    HandledAccounting(r0.traffic, d.requests);
    HandledTimed(r0.traffic, d.requests);
  }

  /**
    The session step of a pass: a stored count, 0 included, steps from
    itself, and an unwritten series steps from 0 (no fresh draw replaces
    it); the result is never negative.
   */
  lemma PassSessions(r0: Registry, d: PassDraws, r: Registry)
    requires PassDrawsOk(d) && Passed(r0, d, r)
    ensures forall k :: r.sessions[k] >= 0
    ensures forall k :: k in r0.sessions ==> r.sessions[k] == MaxInt(0, r0.sessions[k] + d.changes[k])
    ensures forall k :: k !in r0.sessions ==> r.sessions[k] == MaxInt(0, d.changes[k])
  {
  }

  /**
    A negative change records `abs(change)` durations even when the clamp
    at 0 ended fewer sessions: the count drops by `min(current, -change)`.
   */
  lemma PassEndedSessions(r0: Registry, d: PassDraws, r: Registry)
    requires PassDrawsOk(d) && Bounded(r0) && Passed(r0, d, r)
    ensures forall k :: |Get(r.sessionDuration, k, [])| - |Get(r0.sessionDuration, k, [])| == Ended(d.changes[k])
    ensures forall k :: k in r0.sessions && d.changes[k] < 0 ==>
              r0.sessions[k] - r.sessions[k] == if r0.sessions[k] < -d.changes[k] then r0.sessions[k] else -d.changes[k]
  {
  }

  /** The transaction rates a pass leaves do not depend on the rates before it. */
  lemma PassRatesFresh(r0: Registry, r0': Registry, d: PassDraws, r: Registry, r': Registry)
    requires PassDrawsOk(d) && Passed(r0, d, r) && Passed(r0', d, r')
    ensures r.transactionsRate == r'.transactionsRate
  {
    assert forall k :: k in r.transactionsRate <==> k in r'.transactionsRate;
  }

  // ---------------------------------------------------------------------------
  // The exporter process

  /**
    The exporter process: the module-level instruments that
    `generate_diameter_metrics` seeds once and then updates in place on
    every pass of its loop. `simulating` records that the seeding ran, so
    the loop is running.
   */
  class Exporter {
    var registry: Registry
    var simulating: bool

    ghost predicate Valid()
      reads this
    {
      Bounded(registry)
    }

    /** Process start: every instrument is registered and unwritten. */
    constructor ()
      ensures Valid() && registry == Fresh && !simulating
    {
      registry := Fresh;
      simulating := false;
      FreshBounded();
    }

    /**
      The start of `generate_diameter_metrics`: with the simulation disabled
      it returns at once and writes nothing; otherwise it seeds the session
      gauges.
     */
    method Start(enabled: bool, d: SeedDraws)
      requires Valid() && !simulating && SeedDrawsOk(d)
      modifies this
      ensures Valid() && simulating == enabled
      ensures !enabled ==> registry == old(registry)
      ensures enabled ==> Seeded(old(registry), d, registry)
    {
      if enabled {
        registry := SeedMetrics(registry, d);
        simulating := true;
      }
    }

    /** One pass of the `while True` loop. */
    method Pass(d: PassDraws)
      requires Valid() && simulating && PassDrawsOk(d)
      modifies this
      ensures Valid() && simulating && Passed(old(registry), d, registry)
    {
      registry := SimulatePass(registry, d);
    }
  }
}
