# TeleMonitor metric engines in Dafny

TeleMonitor is a demonstration telecom monitoring stack. Four Python processes
invent plausible metric series and expose them to Prometheus:

- the aggregating simulator `simulator/app.py`, which also keeps the rolling
  `metrics_history` the dashboard reads;
- the VoIP exporter;
- the IPsec exporter;
- the Diameter exporter.

Each process runs a loop. On every pass it reads the current value of each
labelled gauge and adds a drawn change clamped to fixed bounds. It grows every
counter by a non-negative drawn increment and records the histogram
observations that go with those increments. This project models one pass of
each loop and the seeding that comes before it. It proves what the passes
keep true and what each pass changes.

## Modules

- **`Telemetry`** (`telemetry.dfy`): the shared vocabulary.
  - A registry of instruments is a set of maps from label values to values. A
    child that was never written reads as its default (`Get`).
  - Counters grow with `Inc`. A histogram keeps its observations in order
    (`Observe`, `ObserveAll`).
  - `Walk`, `WalkAbove` and `WalkCount` are the clamped random-walk steps. They
    read the stored value with Python's `or default`, so a stored 0 reads as
    the default.
  - A family of "up to place i" predicates, with one step lemma each, serves as
    the invariants of the loops over label catalogs.
- **`MetricsHistory`** (`metrics_history.dfy`): the five history lists of the
  simulator as a value.
  - The update each generator makes: drop the oldest entry once the list reaches
    `MAX_HISTORY_SIZE` (100), then append. The IPsec and mobile lists append
    only while they are shorter than `timestamp`.
  - What any sequence of complete passes leaves in the lists.
- **`Simulator`** (`simulator.dfy`):
  - the four generators of the simulator, as methods over their series;
  - one pass of `generate_metrics` (`Tick`);
  - the class `Simulator`, whose `GenerateMetrics` performs a pass in place;
  - `get_status`'s `metrics_count` and the message selection of `control_simulator`.
- **`VoipExporter`**, **`IpsecExporter`** and **`DiameterExporter`**: one module
  per exporter. Each has:
  - the registry datatype and its `Bounded` invariant;
  - the seeding (`SeedMetrics`) and its `Seeded` relation;
  - one pass of the loop (`SimulatePass`) and its `Passed` relation;
  - lemmas about `Passed`;
  - a class `Exporter` whose `Start` and `Pass` update the registry in place.

## How the model is built

- **Random draws are parameters.** Every value the source takes from `random` is
  an input of the operation, in a `...Draws` datatype. Its `...DrawsOk`
  predicate states the range of `randint` (an `int`) or `uniform` (an exact
  `real`).
- **Probabilistic branches are choices.** A branch taken with some probability
  is a `bool` or an `Option` draw. The probabilities are not modelled.
- **State changes are imperative.** Every loop of the source over a label catalog
  is a `while` loop. Its invariants say which labels it has already updated,
  and its postcondition states the new maps outright. Each module has a ghost
  relation (`Advanced`, `Seeded`, `Passed`) that states what one call does. An
  invariant (`Bounds`, `Bounded`, `Consistent`) holds between calls. Lemmas
  relate the two.

## Behaviour of the source that the model keeps

- **Python's `or` treats a stored 0 as missing.**
  - In the VoIP exporter, a jitter, packet-loss or R-factor gauge that was clamped
    to 0 restarts from 20, 1.0 or 80 on the next pass. A region gauge at 0 reads
    as 50 (`StepGaugesRestartFromZero`, `RegionLoop`).
  - In the IPsec exporter, the toggle computes `1 - (current or 1)`. A down tunnel
    (0) reads as 1, so toggling always yields 0. The model proves that a down
    tunnel never comes back up (`ToggleIsDown`, `PassStates`, `DownStaysDown`).
  - Also in the IPsec exporter, a packet loss clamped to 0 restarts the next pass
    from 0.5, and a latency that reads 0 restarts from 20
    (`StepPathRestartFromZero`, `PassLossRestart`).
- **A Diameter session gauge steps from what it reads.** The exporter tests
  `current is None`, but a gauge child reads 0.0, never `None`. So the
  replacement draw behind that test is never taken. A stored count, 0
  included, steps from itself, and a series never written steps from 0. After
  seeding every type holds a count (`SeededSessions`, `PassSessions`).
- **Duration counts ignore the clamp.** A negative Diameter session change
  records `abs(change)` durations even when the clamp at 0 removed fewer
  sessions (`PassEndedSessions`).
- **The IPsec and mobile history lists can lag.** They append only while they
  are shorter than `timestamp`, so they are never longer than it. The simulator
  appends to them after the VoIP generator has appended to `timestamp`, so on
  every complete pass all five lists have the same length.
- **`control_simulator` echoes the last key present.** Its message reflects the
  last key present, in the order `voip_call_rate`, `error_rate`,
  `simulation_mode`. With none present, the status stays success and the
  message stays `Settings updated`. A body on which the key tests raise gives
  the error status with the exception's text.

## Model

| member | source | states |
|---|---|---|
| MetricsHistory.Push | simulator/app.py:166-170 | the cap: from a list of at most 100 entries the result has 1 to 100 entries; it has one more entry unless full; the newest entry is the appended one |
| MetricsHistory.PushIsSuffix | simulator/app.py:181-186 | what survives a push is the newest part of the old list followed by the new entry |
| MetricsHistory.PushBehind | simulator/app.py:218-222 | the IPsec/mobile list appends exactly when, after the pop, it is shorter than the timestamp list; it never gets longer than that list or than 100 |
| MetricsHistory.RecordDiameter | simulator/app.py:165-170 | the Diameter history update keeps the lists well formed (capped, timestamp and voip_calls of equal length, IPsec and mobile lists no longer than timestamp) |
| MetricsHistory.RecordVoip | simulator/app.py:180-186 | timestamp and voip_calls are pushed together, so they keep equal length (at least 1); the other lists are untouched |
| MetricsHistory.RecordIpsec | simulator/app.py:216-222 | the IPsec history update keeps the lists well formed |
| MetricsHistory.RecordMobile | simulator/app.py:266-272 | the mobile history update keeps the lists well formed |
| MetricsHistory.RecordTick | simulator/app.py:276-281 | the four updates of one pass, in order, keep the lists well formed |
| MetricsHistory.Replay | simulator/app.py:52-61 | the history after any sequence of passes from the empty lists is well formed |
| MetricsHistory.ReplayWindow | simulator/app.py:52-61 | after n passes every list holds the last min(n, 100) values of its aggregate, oldest first |
| MetricsHistory.ReplayLengths | simulator/app.py:61 | after n passes every one of the five lists has exactly min(n, 100) entries |
| MetricsHistory.PushKeepsGaps | simulator/app.py:166-170 | dropping the oldest total and appending one that is 4..80 above the newest keeps consecutive totals 4..80 apart |
| Simulator.NextSessions | simulator/app.py:159-163 | an active-session gauge is never negative after a step, moves by at most 50, and moves by exactly the change when that stays non-negative |
| Simulator.NextVoipCalls | simulator/app.py:175-178 | active calls stay in [0, 500], move by at most 30, and by exactly the trend when that stays inside |
| Simulator.NextSubscribers | simulator/app.py:243-247 | a subscriber gauge is never negative, moves by at most 100, and by exactly the change when that stays non-negative |
| Simulator.TunnelTotal | simulator/app.py:211-217 | the IPsec history total is the sum of the three drawn counts and lies in [10, 58] |
| Simulator.RequestLoop | simulator/app.py:144-151 | every request counter grows by its draw and every latency gauge holds its draw |
| Simulator.SessionLoop | simulator/app.py:158-163 | every application's session gauge takes its clamped step from its previous value (0 when unset) |
| Simulator.CodecLoop | simulator/app.py:188-205 | every codec's MOS, jitter and loss gauges hold their draws and its setup-time histogram gains exactly its one observation |
| Simulator.TunnelStateLoop | simulator/app.py:210-214 | each tunnel state gauge holds the count drawn for it, in catalog order |
| Simulator.TunnelLoop | simulator/app.py:224-231 | tunnels 1..5 hold their bandwidth and latency draws; no other tunnel changes |
| Simulator.SubscriberLoop | simulator/app.py:242-247 | every subscriber gauge takes its clamped step from its previous value |
| Simulator.CellLoop | simulator/app.py:255-258 | cells 1..3 of the generation hold their signal draws; every other (generation, cell) is unchanged |
| Simulator.GenerationLoop | simulator/app.py:249-258 | every generation holds its traffic draw and its three cells their signal draws; other cells are unchanged |
| Simulator.HandoverLoop | simulator/app.py:260-264 | each handover counter grows by its drawn amount when its branch is taken, else stays |
| Simulator.DiameterAdvancedKeepsBounds | simulator/app.py:144-163 | one Diameter pass keeps counters and sessions non-negative and latencies in [20, 300], and raises the request total by 4..80 |
| Simulator.VoipAdvancedKeepsBounds | simulator/app.py:174-205 | one VoIP pass keeps active calls in [0, 500] and every quality gauge and setup time inside its draw range |
| Simulator.IpsecAdvancedKeepsBounds | simulator/app.py:209-237 | one IPsec pass keeps counts non-negative and bandwidth in [5, 100], latency in [10, 150] |
| Simulator.MobileAdvancedKeepsBounds | simulator/app.py:241-264 | one mobile pass keeps counts non-negative, traffic and signal in range, and the subscriber total non-negative |
| Simulator.GenerateDiameterMetrics | simulator/app.py:138-170 | the series advance with the draws; the history gains the new request total; consecutive totals stay 4..80 apart and the newest equals the counter sum |
| Simulator.GenerateVoipMetrics | simulator/app.py:172-205 | the series advance; timestamp and voip_calls gain the time and the new gauge value; every recorded call count stays in [0, 500] |
| Simulator.GenerateIpsecMetrics | simulator/app.py:207-237 | the series advance; the history gains the tunnel total when behind timestamp; every recorded total stays in [10, 58] |
| Simulator.GenerateMobileMetrics | simulator/app.py:239-272 | the series advance; the history gains the subscriber total when behind timestamp; every recorded total stays non-negative |
| Simulator.InitialConsistent | simulator/app.py:52-61 | the process starts in a state where every invariant of the passes holds |
| Simulator.Tick | simulator/app.py:276-281 | one pass runs the four generators in order and keeps every invariant |
| Simulator.Simulator.constructor | simulator/app.py:25-61 | the process starts with no series written and empty history lists |
| Simulator.Simulator.GenerateMetrics | simulator/app.py:274-283 | one pass of the loop updates the state in place as Tick says and keeps the invariant |
| Simulator.GetStatus | simulator/app.py:74-82 | metrics_count is the length of timestamp (equal to that of voip_calls), never above 100; the status is active |
| Simulator.TicksReplay | simulator/app.py:274-283 | the history left by any run of passes from process start is the replay of the points those passes recorded, whose times are the passes' times in order |
| Simulator.MetricsCountAfterPasses | simulator/app.py:81 | after a run of n passes from process start metrics_count is min(n, 100), and timestamp holds the times of the last min(n, 100) passes, oldest first |
| Simulator.ControlSimulator | simulator/app.py:99-122 | the message echoes the last key present in the order voip_call_rate, error_rate, simulation_mode, else Settings updated; success exactly for a readable body; an error carries the exception text |
| VoipExporter.FreshBounded | exporters/Voip/app.py:25-44 | the registry with nothing written satisfies the exporter's invariant |
| VoipExporter.SeededKeepsBounds | exporters/Voip/app.py:69-86 | the seeded values (total calls 50..500, codec and region calls 10..100, MOS 3.0..4.8, R-factor 70..93, ...) lie inside every gauge's range |
| VoipExporter.SeedCodecLoop | exporters/Voip/app.py:74-83 | every codec's six gauges hold their seed draws |
| VoipExporter.SeedRegionLoop | exporters/Voip/app.py:85-86 | every region gauge holds its seed draw |
| VoipExporter.SeedMetrics | exporters/Voip/app.py:69-86 | the seeding sets every gauge to its draw, leaves counters and histogram untouched, and keeps the invariant |
| VoipExporter.StepGaugesBounded | exporters/Voip/app.py:101-132 | whatever a codec's gauges read before, after a step calls are in [0, 200], MOS in [1, 5], jitter ≥ 0, loss and R-factor in [0, 100], latency ≥ 10 |
| VoipExporter.StepGaugesMoveGently | exporters/Voip/app.py:103-127 | from bounded gauges a step moves codec calls by at most 10, MOS by at most 0.2 and latency by at most 10 |
| VoipExporter.StepGaugesRestartFromZero | exporters/Voip/app.py:114-132 | a jitter, loss or R-factor gauge at 0 steps from 20, 1.0 or 80 instead of from 0 |
| VoipExporter.ResultLoop | exporters/Voip/app.py:136-144 | every outcome counter of the codec grows by its draw, and its duration histogram gains exactly the durations of its completed calls |
| VoipExporter.CodecLoop | exporters/Voip/app.py:101-144 | every codec's gauges take their walk step, every call counter grows by its draw, every duration histogram gains its completed-call durations |
| VoipExporter.RegionLoop | exporters/Voip/app.py:147-151 | every region gauge takes its step in [0, 200], a stored 0 read as 50 |
| VoipExporter.SipLoop | exporters/Voip/app.py:154-163 | every transaction counter grows by its draw; only the drawn error code of a method whose error branch was taken grows, by the drawn count |
| VoipExporter.SimulatePass | exporters/Voip/app.py:94-163 | one pass does exactly what Passed states and keeps the invariant |
| VoipExporter.PassKeepsBounds | exporters/Voip/app.py:94-163 | a pass keeps active calls in [0, 1000], every gauge in range, counters non-negative, durations in [30, 3600], and each codec's duration count equal to its completed-call count |
| VoipExporter.PassGaugesBounded | exporters/Voip/app.py:101-151 | whatever they read before, after a pass every codec's gauges are in range and every region gauge is in [0, 200] |
| VoipExporter.PassDurationsWithin | exporters/Voip/app.py:141-144 | after a pass from a bounded registry every recorded call duration is in [30, 3600] |
| VoipExporter.PassCounterGrowth | exporters/Voip/app.py:134-163 | call counters grow by 0..3, transactions by 5..50, error counters by 0..5, and at most one error code grows per method |
| VoipExporter.Exporter.constructor | exporters/Voip/app.py:25-44 | the process starts with every instrument registered and unwritten, and not simulating |
| VoipExporter.Exporter.Start | exporters/Voip/app.py:56-86 | with the simulation disabled nothing is written; otherwise the state is Seeded |
| VoipExporter.Exporter.Pass | exporters/Voip/app.py:90-163 | one pass of the loop updates the registry in place as Passed says and keeps the invariant |
| IpsecExporter.SubnetsShared | exporters/ipsec/app.py:76-78 | two tunnels get the same subnet pair exactly when they are equal or 5 apart (tunnels 1 and 6 share one) |
| IpsecExporter.FreshBounded | exporters/ipsec/app.py:23-40 | the registry with nothing written satisfies the exporter's invariant |
| IpsecExporter.DirectionLoop | exporters/ipsec/app.py:120-130 | both directions of the tunnel take their step; every other (tunnel, direction) is unchanged |
| IpsecExporter.SeededKeepsBounds | exporters/ipsec/app.py:69-92 | the seeded values lie inside every series' range; states are 0 or 1 |
| IpsecExporter.SeedMetrics | exporters/ipsec/app.py:69-92 | the seeding sets the four counts, every tunnel state (1 when up, else 0), bandwidth, latency and loss to their draws, adds the seed packets and bytes, and keeps the invariant |
| IpsecExporter.CountLoop | exporters/ipsec/app.py:99-103 | every state count takes its step max(0, current + change) |
| IpsecExporter.SimulatePass | exporters/ipsec/app.py:96-154 | one pass does exactly what Passed states and keeps the invariant |
| IpsecExporter.PassKeepsBounds | exporters/ipsec/app.py:106-141 | a pass keeps states in {0, 1}, bandwidth in [1, 1000], latency ≥ 1, loss in [0, 10], counters non-negative |
| IpsecExporter.ToggleIsDown | exporters/ipsec/app.py:111-112 | toggling a state of 0 or 1 always gives 0 |
| IpsecExporter.PassStates | exporters/ipsec/app.py:106-117 | after a pass a tunnel is up exactly when it was up and was not drawn for toggling; a down tunnel stays down |
| IpsecExporter.DownStaysDown | exporters/ipsec/app.py:106-117 | over any run of passes a tunnel that is down stays down |
| IpsecExporter.PassCounts | exporters/ipsec/app.py:99-103 | the state counts stay non-negative and move by at most 2 per pass |
| IpsecExporter.PassTraffic | exporters/ipsec/app.py:126-130 | the packet counter grows by 100..1000 and the byte counter by between 500 and 1500 times that |
| IpsecExporter.StepPathRestartFromZero | exporters/ipsec/app.py:133-141 | a tunnel's packet loss at 0 steps from 0.5, and a latency at 0 from 20, instead of from 0 |
| IpsecExporter.PassLossRestart | exporters/ipsec/app.py:138-141 | over a pass every tunnel whose loss reads 0 takes its step from 0.5 |
| IpsecExporter.PassEvents | exporters/ipsec/app.py:143-154 | rekey and auth-failure counters grow by exactly 1 when their branch is taken, else 0; crypto errors grow by 0..3 and for at most one type |
| IpsecExporter.Exporter.constructor | exporters/ipsec/app.py:23-40 | the process starts with every instrument registered and unwritten, and not simulating |
| IpsecExporter.Exporter.Start | exporters/ipsec/app.py:53-92 | with the simulation disabled nothing is written; otherwise the state is Seeded |
| IpsecExporter.Exporter.Pass | exporters/ipsec/app.py:96-154 | one pass of the loop updates the registry in place as Passed says and keeps the invariant |
| DiameterExporter.FreshBounded | exporters/diameter/app.py:23-42 | the registry with nothing written satisfies the exporter's invariant |
| DiameterExporter.SeedMetrics | exporters/diameter/app.py:66-68 | every session gauge holds its seed draw, nothing else changes, and the invariant holds |
| DiameterExporter.SeededSessions | exporters/diameter/app.py:66-68 | after seeding every type has a stored session count in [10, 1000] |
| DiameterExporter.RequestLoop | exporters/diameter/app.py:75-94 | the traffic instruments after the loop are those after handling the drawn requests in order |
| DiameterExporter.HandledAccounting | exporters/diameter/app.py:75-94 | handling n requests raises the request total by n and the error and response totals together by n |
| DiameterExporter.HandledTimed | exporters/diameter/app.py:80-84 | each type's latency histogram gains exactly as many observations as its request row grew, and all of them stay in [0.001, 0.5] |
| DiameterExporter.HandledGrows | exporters/diameter/app.py:75-94 | handling requests never decreases a counter |
| DiameterExporter.SessionLoop | exporters/diameter/app.py:96-111 | every session gauge takes its step max(0, current + change) from what it reads (0 when never written), and each type's duration histogram gains its drawn durations |
| DiameterExporter.RateLoop | exporters/diameter/app.py:113-116 | every transaction-rate gauge holds its draw |
| DiameterExporter.SimulatePass | exporters/diameter/app.py:72-116 | one pass does exactly what Passed states and keeps the invariant |
| DiameterExporter.PassKeepsBounds | exporters/diameter/app.py:72-116 | a pass keeps counters and sessions non-negative, latencies in [0.001, 0.5], durations in [10, 7200] and rates in [5, 200] |
| DiameterExporter.PassRequests | exporters/diameter/app.py:75-94 | a pass raises the request total by 5..20 and by as much as the error and response totals together; each type's latency count grows with its requests |
| DiameterExporter.PassSessions | exporters/diameter/app.py:97-105 | sessions are never negative; a stored count, 0 included, steps from itself, and a series never written steps from 0 |
| DiameterExporter.PassEndedSessions | exporters/diameter/app.py:102-111 | a negative change records abs(change) durations, while the count drops only by min(current, -change) |
| DiameterExporter.PassRatesFresh | exporters/diameter/app.py:113-116 | the rates after a pass do not depend on the registry before it |
| DiameterExporter.Exporter.constructor | exporters/diameter/app.py:23-42 | the process starts with every instrument registered and unwritten, and not simulating |
| DiameterExporter.Exporter.Start | exporters/diameter/app.py:54-68 | with the simulation disabled nothing is written; otherwise the state is Seeded |
| DiameterExporter.Exporter.Pass | exporters/diameter/app.py:72-116 | one pass of the loop updates the registry in place as Passed says and keeps the invariant |

## Left out

- **HTTP and the Prometheus client.** The Flask routes, `render_template`,
  `jsonify`, `Response`, `start_http_server` and `generate_latest` are HTTP
  plumbing and foreign encoding. Of the dashboard API only the values of
  `get_status`'s simulator entry and of `control_simulator` are modelled.
- **`check_exporter_status`.** It is a constant mock with no behaviour.
- **The prometheus_client internals.** `_value.get()` and `_metrics` are replaced
  by plain maps. A child never written reads 0 for gauges and counters, and is a
  key missing from its map.
- **The Diameter `current is None` branch.** The `randint(10, 1000)` draw behind
  it (exporters/diameter/app.py:99-100) is not modelled, because a gauge child
  never reads `None` and the branch is never taken. A session type missing from
  the map reads 0.
- **The IPsec toggle's lookup.** The toggle scans `_metrics` and matches
  `label_dict[0][1]`, which depends on the library's unseen key layout. The model
  uses the intended direct lookup by tunnel id and does not claim the scan finds
  its target.
- **Randomness.** The `random` module and the probabilities of the branches are
  not modelled. Draws are parameters with their ranges, and each branch is a
  `bool` or `Option` input.
- **Floating point.** `uniform` draws and gauge values are exact reals, so float
  rounding is not modelled.
- **Whole numbers as `int`.** Gauges that only ever receive whole numbers are
  `int`: the IPsec and simulator state counts, the Diameter and simulator
  sessions, and the subscriber counts. VoIP call gauges receive float trends, so
  they are reals.
- **Label text.** Tunnel and cell names (`tunnel_i`, `cell_i`) are the integers
  i. Result codes are integers rather than their `str` rendering. Other labels
  are enumerations.
- **Time and concurrency.** `threading`, `time.sleep`, the `while True` loop with
  its `except` back-off, and `time.time()` are not modelled. The time is an
  input of the simulator's pass, and one pass is an operation. The `except`
  branch and its longer sleep are not modelled.
- **Logging, environment variables and configuration.** The ports, the intervals
  and `SIMULATION_ENABLED` are not modelled; `SIMULATION_ENABLED` is an input of
  `Start`.
- **Unused or constant values.** The VoIP `completed_calls` draw is not
  modelled, because it has no effect. The status `uptime` text is the constant
  `00:00:00`, which `GetStatus` returns as it is and no contract states anything
  about. The Diameter timeout counter is registered but never written; the
  model states that passes leave it unchanged.
- DiameterExporter.PassRequests: the request, error and response accounting is
  stated per pass, as deltas, rather than as an invariant of the totals since
  process start.
- IpsecExporter.DownStaysDown: stated for a run of passes given as a sequence of
  registries related by `Passed`, rather than for the class's successive
  states.
