/**
  The IPsec exporter of `exporters/ipsec/app.py`: a background thread that
  seeds the gauges and counters of ten tunnels once and then, pass after
  pass, walks the per-state tunnel counts, sometimes toggles a tunnel's
  up/down state, walks bandwidth, latency and packet loss, adds traffic to
  the packet and byte counters, and counts rekeys, authentication failures
  and crypto errors.

  The values the thread draws from `random` are parameters (`SeedDraws`,
  `PassDraws`) whose `...Ok` predicates state the ranges of `randint` and
  `uniform`; each probabilistic branch is a `bool` or an `Option`.
 */
module IpsecExporter {
  import opened Telemetry

  // ---------------------------------------------------------------------------
  // Label catalogs

  datatype TunnelState = Established | Connecting | Rekeying | Failed
  const TunnelStates: seq<TunnelState> := [Established, Connecting, Rekeying, Failed]

  function TunnelStateIndex(s: TunnelState): (i: nat)
    ensures i < |TunnelStates| && TunnelStates[i] == s
  {
    match s
    case Established => 0
    case Connecting => 1
    case Rekeying => 2
    case Failed => 3
  }

  /** The tunnel `tunnel_k` is the number k; `tunnel_ids` lists tunnel_1 to tunnel_10. */
  type TunnelId = k: int | 1 <= k <= 10 witness 1

  const Tunnels: seq<TunnelId> := [1, 2, 3, 4, 5, 6, 7, 8, 9, 10]

  /** The place of a tunnel in `tunnel_ids`: the index `i` of `enumerate`. */
  function TunnelIndex(t: TunnelId): (i: nat)
    ensures i < |Tunnels| && Tunnels[i] == t
  {
    t - 1
  }

  datatype Direction = In | Out
  const Directions: seq<Direction> := [In, Out]

  function DirectionIndex(dir: Direction): (i: nat)
    ensures i < |Directions| && Directions[i] == dir
  {
    match dir
    case In => 0
    case Out => 1
  }

  datatype CryptoError = IntegrityCheck | DecryptFailure | InvalidKey | ReplayError | BadProposal

  // ---------------------------------------------------------------------------
  // Subnets

  const LocalSubnets: seq<string> := ["10.1.0.0/24", "10.2.0.0/24", "10.3.0.0/24", "172.16.0.0/16", "192.168.1.0/24"]
  const RemoteSubnets: seq<string> := ["192.168.10.0/24", "192.168.20.0/24", "172.31.0.0/16", "10.50.0.0/16", "10.60.0.0/16"]

  /** The local and remote subnet labels of a tunnel's state series: entry `i % 5` of each list. */
  function Subnets(t: TunnelId): (string, string)
  {
    (LocalSubnets[TunnelIndex(t) % |LocalSubnets|], RemoteSubnets[TunnelIndex(t) % |RemoteSubnets|])
  }

  /**
    Two tunnels carry the same subnet labels exactly when their places in
    `tunnel_ids` are five apart or equal: tunnel_1 and tunnel_6 share a pair.
   */
  lemma SubnetsShared(t: TunnelId, t': TunnelId)
    ensures Subnets(t) == Subnets(t') <==> t == t' || t - t' == 5 || t' - t == 5
  {
    var i, i' := TunnelIndex(t) % 5, TunnelIndex(t') % 5;
    if i != i' {
      LocalSubnetsDistinct(i, i');
    }
  }

  /** The five local subnets are distinct: their second or fourth characters differ. */
  lemma LocalSubnetsDistinct(i: nat, j: nat)
    requires i < 5 && j < 5 && i != j
    ensures LocalSubnets[i] != LocalSubnets[j]
  {
    var a, b := LocalSubnets[i], LocalSubnets[j];
    assert a[1] != b[1] || a[3] != b[3];
  }

  // ---------------------------------------------------------------------------
  // The instruments

  /** The bandwidth gauge and the packet and byte counters of one (tunnel, direction). */
  datatype Link = Link(bandwidth: real, packets: int, bytes: int)
  const NoLink := Link(0.0, 0, 0)

  /** The latency and packet-loss gauges and the rekey and auth-failure counters of one tunnel. */
  datatype Path = Path(latency: real, packetLoss: real, rekeys: int, authFailures: int)
  const NoPath := Path(0.0, 0.0, 0, 0)

  /**
    The exporter's instruments.  `counts` is `telecom_ipsec_tunnels` by state
    (whole numbers, since every value written to it is one); `states` is
    `telecom_ipsec_tunnel_state`, keyed by tunnel (its subnet labels are
    `Subnets(t)`).
   */
  datatype Registry = Registry(
    counts: map<TunnelState, int>,
    states: map<TunnelId, real>,
    links: map<(TunnelId, Direction), Link>,
    paths: map<TunnelId, Path>,
    cryptoErrors: map<CryptoError, int>)

  /** Every instrument registered and no series written. */
  const Fresh := Registry(map[], map[], map[], map[], map[])

  predicate LinkBounded(l: Link)
  {
    1.0 <= l.bandwidth <= 1000.0 && l.packets >= 0 && l.bytes >= 0
  }

  predicate PathBounded(p: Path)
  {
    p.latency >= 1.0 && 0.0 <= p.packetLoss <= 10.0 && p.rekeys >= 0 && p.authFailures >= 0
  }

  /** The ranges every series stays in: in particular each tunnel state is 0 (down) or 1 (up). */
  ghost predicate Bounded(r: Registry)
  {
    && (forall s :: Get(r.counts, s, 0) >= 0)
    && (forall t: TunnelId :: t in r.states ==> r.states[t] == 0.0 || r.states[t] == 1.0)
    && (forall t: TunnelId, dir: Direction :: (t, dir) in r.links ==> LinkBounded(r.links[(t, dir)]))
    && (forall t: TunnelId :: t in r.paths ==> PathBounded(r.paths[t]))
    && (forall e :: Get(r.cryptoErrors, e, 0) >= 0)
  }

  lemma FreshBounded()
    ensures Bounded(Fresh)
  {
  }

  // ---------------------------------------------------------------------------
  // Loops over the tunnels and directions, shared by the seeding and the passes

  /**
    Every (tunnel, direction) series of a tunnel before place i took the
    update `f` with its draw; the others are as in `links0`.
   */
  ghost predicate LinksUpdatedUpTo<D>(links: map<(TunnelId, Direction), Link>, links0: map<(TunnelId, Direction), Link>,
                                      ds: map<(TunnelId, Direction), D>, f: (Link, D) -> Link, i: nat)
    requires forall t: TunnelId, dir: Direction :: (t, dir) in ds
  {
    forall t: TunnelId, dir: Direction :: if TunnelIndex(t) < i then (t, dir) in links && links[(t, dir)] == f(Get(links0, (t, dir), NoLink), ds[(t, dir)])
                     else Agree(links, links0, (t, dir))
  }

  /** `for direction in directions` for the tunnel `t`: each of its two series takes the update `f`. */
  method DirectionLoop<D>(links0: map<(TunnelId, Direction), Link>, t: TunnelId,
                          ds: map<(TunnelId, Direction), D>, f: (Link, D) -> Link)
    returns (links: map<(TunnelId, Direction), Link>)
    requires forall t': TunnelId, dir: Direction :: (t', dir) in ds
    ensures forall t': TunnelId, dir: Direction :: if t' == t then (t', dir) in links && links[(t', dir)] == f(Get(links0, (t', dir), NoLink), ds[(t', dir)])
                              else Agree(links, links0, (t', dir))
  {
    links := links0;
    var j := 0;
    while j < |Directions|
      invariant 0 <= j <= |Directions|
      invariant forall t': TunnelId, dir: Direction :: if t' == t && DirectionIndex(dir) < j
                                  then (t', dir) in links && links[(t', dir)] == f(Get(links0, (t', dir), NoLink), ds[(t', dir)])
                                  else Agree(links, links0, (t', dir))
    {
      var dir := Directions[j];
      links := links[(t, dir) := f(Get(links, (t, dir), NoLink), ds[(t, dir)])];
      j := j + 1;
    }
  }

  lemma LinksUpdatedUpToStep<D>(links: map<(TunnelId, Direction), Link>, links': map<(TunnelId, Direction), Link>,
                                links0: map<(TunnelId, Direction), Link>,
                                ds: map<(TunnelId, Direction), D>, f: (Link, D) -> Link, i: nat)
    requires i < |Tunnels| && forall t: TunnelId, dir: Direction :: (t, dir) in ds
    requires LinksUpdatedUpTo(links, links0, ds, f, i)
    requires forall t': TunnelId, dir: Direction :: if t' == Tunnels[i] then (t', dir) in links' && links'[(t', dir)] == f(Get(links, (t', dir), NoLink), ds[(t', dir)])
                               else Agree(links', links, (t', dir))
    ensures LinksUpdatedUpTo(links', links0, ds, f, i + 1)
  {
    forall t: TunnelId, dir: Direction ensures if TunnelIndex(t) < i + 1 then (t, dir) in links' && links'[(t, dir)] == f(Get(links0, (t, dir), NoLink), ds[(t, dir)])
                          else Agree(links', links0, (t, dir))
    {
      if t == Tunnels[i] {
        assert TunnelIndex(t) == i;
        assert Agree(links, links0, (t, dir));
      } else {
        assert TunnelIndex(t) != i;
      }
    }
  }

  /** Every tunnel's path series before place i took the update `f` with its draw; the others are as in `paths0`. */
  ghost predicate PathsUpdatedUpTo<D>(paths: map<TunnelId, Path>, paths0: map<TunnelId, Path>,
                                      ds: map<TunnelId, D>, f: (Path, D) -> Path, i: nat)
    requires forall t: TunnelId :: t in ds
  {
    forall t: TunnelId :: if TunnelIndex(t) < i then t in paths && paths[t] == f(Get(paths0, t, NoPath), ds[t])
                else Agree(paths, paths0, t)
  }

  lemma PathsUpdatedUpToStep<D>(paths: map<TunnelId, Path>, paths0: map<TunnelId, Path>,
                                ds: map<TunnelId, D>, f: (Path, D) -> Path, i: nat)
    requires i < |Tunnels| && forall t: TunnelId :: t in ds
    requires PathsUpdatedUpTo(paths, paths0, ds, f, i)
    ensures PathsUpdatedUpTo(paths[Tunnels[i] := f(Get(paths, Tunnels[i], NoPath), ds[Tunnels[i]])], paths0, ds, f, i + 1)
  {
    var paths' := paths[Tunnels[i] := f(Get(paths, Tunnels[i], NoPath), ds[Tunnels[i]])];
    forall t: TunnelId ensures if TunnelIndex(t) < i + 1 then t in paths' && paths'[t] == f(Get(paths0, t, NoPath), ds[t])
                     else Agree(paths', paths0, t)
    {
      if t == Tunnels[i] {
        assert TunnelIndex(t) == i;
        assert Agree(paths, paths0, t);
      } else {
        assert TunnelIndex(t) != i;
      }
    }
  }

  // ---------------------------------------------------------------------------
  // Seeding

  /** The `randint` bounds of each state's initial tunnel count. */
  function SeedCountRange(s: TunnelState): (int, int)
  {
    match s
    case Established => (5, 20)
    case Connecting => (0, 3)
    case Rekeying => (0, 2)
    case Failed => (0, 5)
  }

  /** The seeding draws of one tunnel: whether it is up (80%), its latency and packet loss. */
  datatype TunnelSeed = TunnelSeed(up: bool, latency: real, packetLoss: real)

  /** The seeding draws of one (tunnel, direction): bandwidth, packet and byte increments. */
  datatype LinkSeed = LinkSeed(bandwidth: real, packets: int, bytes: int)

  datatype SeedDraws = SeedDraws(
    counts: map<TunnelState, int>,
    tunnels: map<TunnelId, TunnelSeed>,
    links: map<(TunnelId, Direction), LinkSeed>)

  ghost predicate SeedDrawsOk(d: SeedDraws)
  {
    && (forall s :: s in d.counts && SeedCountRange(s).0 <= d.counts[s] <= SeedCountRange(s).1)
    && (forall t: TunnelId :: t in d.tunnels && 5.0 <= d.tunnels[t].latency <= 100.0 && 0.0 <= d.tunnels[t].packetLoss <= 2.0)
    && (forall t: TunnelId, dir: Direction :: (t, dir) in d.links &&
          5.0 <= d.links[(t, dir)].bandwidth <= 100.0 &&
          1000 <= d.links[(t, dir)].packets <= 10000 &&
          1000000 <= d.links[(t, dir)].bytes <= 10000000)
  }

  /** The state a tunnel is seeded with: 1 when up, 0 when down. */
  function UpState(up: bool): real
  {
    if up then 1.0 else 0.0
  }

  /** Seeding one (tunnel, direction): the bandwidth gauge is set, both counters grow. */
  function SeedLink(l: Link, s: LinkSeed): Link
  {
    Link(s.bandwidth, l.packets + s.packets, l.bytes + s.bytes)
  }

  /** Seeding one tunnel's path: latency and packet loss are set; the counters are untouched. */
  function SeedPath(p: Path, s: TunnelSeed): Path
  {
    p.(latency := s.latency, packetLoss := s.packetLoss)
  }

  /**
    The seeding took `r0` to `r`: every state count, tunnel state, bandwidth,
    latency and loss holds its draw, the packet and byte counters grew by
    theirs, and the crypto error counters are untouched.
   */
  ghost predicate Seeded(r0: Registry, d: SeedDraws, r: Registry)
    requires SeedDrawsOk(d)
  {
    && (forall s :: s in r.counts && r.counts[s] == d.counts[s])
    && (forall t: TunnelId :: t in r.states && r.states[t] == UpState(d.tunnels[t].up))
    && (forall t: TunnelId, dir: Direction :: (t, dir) in r.links && r.links[(t, dir)] == SeedLink(Get(r0.links, (t, dir), NoLink), d.links[(t, dir)]))
    && (forall t: TunnelId :: t in r.paths && r.paths[t] == SeedPath(Get(r0.paths, t, NoPath), d.tunnels[t]))
    && r.cryptoErrors == r0.cryptoErrors
  }

  lemma SeededKeepsBounds(r0: Registry, d: SeedDraws, r: Registry)
    requires SeedDrawsOk(d) && Bounded(r0) && Seeded(r0, d, r)
    ensures Bounded(r)
  {
    forall t: TunnelId, dir: Direction | (t, dir) in r.links ensures LinkBounded(r.links[(t, dir)]) {
      assert (t, dir) in r0.links ==> LinkBounded(r0.links[(t, dir)]);
    }
    forall t: TunnelId | t in r.paths ensures PathBounded(r.paths[t]) {
      assert t in r0.paths ==> PathBounded(r0.paths[t]);
    }
  }

  /** Every tunnel state before place i holds its seeded value; the others are as in `states0`. */
  ghost predicate StatesSeededUpTo(states: map<TunnelId, real>, states0: map<TunnelId, real>,
                                   tunnels: map<TunnelId, TunnelSeed>, i: nat)
    requires forall t: TunnelId :: t in tunnels
  {
    forall t: TunnelId :: if TunnelIndex(t) < i then t in states && states[t] == UpState(tunnels[t].up)
                else Agree(states, states0, t)
  }

  lemma StatesSeededUpToStep(states: map<TunnelId, real>, states0: map<TunnelId, real>,
                             tunnels: map<TunnelId, TunnelSeed>, i: nat)
    requires i < |Tunnels| && forall t: TunnelId :: t in tunnels
    requires StatesSeededUpTo(states, states0, tunnels, i)
    ensures StatesSeededUpTo(states[Tunnels[i] := UpState(tunnels[Tunnels[i]].up)], states0, tunnels, i + 1)
  {
    var states' := states[Tunnels[i] := UpState(tunnels[Tunnels[i]].up)];
    forall t: TunnelId ensures if TunnelIndex(t) < i + 1 then t in states' && states'[t] == UpState(tunnels[t].up)
                     else Agree(states', states0, t)
    {
      if t == Tunnels[i] {
        assert TunnelIndex(t) == i;
      } else {
        assert TunnelIndex(t) != i;
      }
    }
  }

  /** The body of the seeding `for i, tunnel_id in enumerate(tunnel_ids)` for the tunnel at place i. */
  method SeedTunnelStep(states: map<TunnelId, real>, links: map<(TunnelId, Direction), Link>, paths: map<TunnelId, Path>,
                        i: nat, r0: Registry, d: SeedDraws)
    returns (states': map<TunnelId, real>, links': map<(TunnelId, Direction), Link>, paths': map<TunnelId, Path>)
    requires i < |Tunnels| && SeedDrawsOk(d)
    requires StatesSeededUpTo(states, r0.states, d.tunnels, i)
    requires LinksUpdatedUpTo(links, r0.links, d.links, SeedLink, i)
    requires PathsUpdatedUpTo(paths, r0.paths, d.tunnels, SeedPath, i)
    ensures StatesSeededUpTo(states', r0.states, d.tunnels, i + 1)
    ensures LinksUpdatedUpTo(links', r0.links, d.links, SeedLink, i + 1)
    ensures PathsUpdatedUpTo(paths', r0.paths, d.tunnels, SeedPath, i + 1)
  {
    var t := Tunnels[i];
    // The series `(t, Subnets(t))` of the state gauge is set to 1 or 0.
    StatesSeededUpToStep(states, r0.states, d.tunnels, i);
    states' := states[t := UpState(d.tunnels[t].up)];
    links' := DirectionLoop(links, t, d.links, SeedLink);
    LinksUpdatedUpToStep(links, links', r0.links, d.links, SeedLink, i);
    PathsUpdatedUpToStep(paths, r0.paths, d.tunnels, SeedPath, i);
    paths' := paths[t := SeedPath(Get(paths, t, NoPath), d.tunnels[t])];
  }

  /** The seeding before the loop: the four state counts, then every tunnel in order. */
  method SeedMetrics(r: Registry, d: SeedDraws) returns (r': Registry)
    requires SeedDrawsOk(d) && Bounded(r)
    ensures Seeded(r, d, r') && Bounded(r')
  {
    var counts := r.counts[Established := d.counts[Established]][Connecting := d.counts[Connecting]]
                          [Rekeying := d.counts[Rekeying]][Failed := d.counts[Failed]];
    assert forall s :: s in counts && counts[s] == d.counts[s] by {
      forall s ensures s in counts && counts[s] == d.counts[s] {
        match s
        case Established =>
        case Connecting =>
        case Rekeying =>
        case Failed =>
      }
    }
    var states, links, paths := r.states, r.links, r.paths;
    var i := 0;
    while i < |Tunnels|
      invariant 0 <= i <= |Tunnels|
      invariant StatesSeededUpTo(states, r.states, d.tunnels, i)
      invariant LinksUpdatedUpTo(links, r.links, d.links, SeedLink, i)
      invariant PathsUpdatedUpTo(paths, r.paths, d.tunnels, SeedPath, i)
    {
      states, links, paths := SeedTunnelStep(states, links, paths, i, r, d);
      i := i + 1;
    }
    r' := Registry(counts, states, links, paths, r.cryptoErrors);
    SeedingDone(r, d, r');
    SeededKeepsBounds(r, d, r');
  }

  /** After the last tunnel, the loop's account of every tunnel is the seeding's. */
  lemma SeedingDone(r0: Registry, d: SeedDraws, r: Registry)
    requires SeedDrawsOk(d)
    requires forall s :: s in r.counts && r.counts[s] == d.counts[s]
    requires StatesSeededUpTo(r.states, r0.states, d.tunnels, |Tunnels|)
    requires LinksUpdatedUpTo(r.links, r0.links, d.links, SeedLink, |Tunnels|)
    requires PathsUpdatedUpTo(r.paths, r0.paths, d.tunnels, SeedPath, |Tunnels|)
    requires r.cryptoErrors == r0.cryptoErrors
    ensures Seeded(r0, d, r)
  {
    forall t: TunnelId ensures TunnelIndex(t) < |Tunnels| {
    }
  }

  // ---------------------------------------------------------------------------
  // One pass of the loop

  /**
    The draws of one tunnel in a pass: whether its state is toggled (5%), its
    latency and loss changes, and whether it rekeys (10%) or fails to
    authenticate (3%).
   */
  datatype TunnelDraws = TunnelDraws(toggle: bool, latency: real, packetLoss: real, rekey: bool, authFailure: bool)

  /** The draws of one (tunnel, direction) in a pass: the bandwidth change, packet count and packet size. */
  datatype LinkDraws = LinkDraws(bandwidth: real, packets: int, packetSize: int)

  /** The draws of one pass; `crypto` is the crypto error (5%) with its type and count. */
  datatype PassDraws = PassDraws(
    stateChanges: map<TunnelState, int>,
    tunnels: map<TunnelId, TunnelDraws>,
    links: map<(TunnelId, Direction), LinkDraws>,
    crypto: Option<(CryptoError, int)>)

  ghost predicate PassDrawsOk(d: PassDraws)
  {
    && (forall s :: s in d.stateChanges && -2 <= d.stateChanges[s] <= 2)
    && (forall t: TunnelId :: t in d.tunnels &&
          -5.0 <= d.tunnels[t].latency <= 5.0 && -0.2 <= d.tunnels[t].packetLoss <= 0.2)
    && (forall t: TunnelId, dir: Direction :: (t, dir) in d.links &&
          -20.0 <= d.links[(t, dir)].bandwidth <= 20.0 &&
          100 <= d.links[(t, dir)].packets <= 1000 &&
          500 <= d.links[(t, dir)].packetSize <= 1500)
    && (d.crypto.Some? ==> 1 <= d.crypto.value.1 <= 3)
  }

  /**
    The toggle `1 - (current or 1)`: a stored 0 reads as 1 as well, so the
    result is 0 whatever the tunnel's state.
   */
  function Toggle(state: real): real
  {
    1.0 - OrDefault(state, 1.0)
  }

  /** One pass over a (tunnel, direction): bandwidth walks in [1, 1000]; packets and bytes grow. */
  function StepLink(l: Link, ld: LinkDraws): Link
  {
    Link(Walk(l.bandwidth, 50.0, ld.bandwidth, 1.0, 1000.0), l.packets + ld.packets, l.bytes + ld.packets * ld.packetSize)
  }

  /** One pass over a tunnel's path: latency walks above 1, loss in [0, 10]; rekeys and auth failures count. */
  function StepPath(p: Path, td: TunnelDraws): Path
  {
    Path(WalkAbove(p.latency, 20.0, td.latency, 1.0),
         Walk(p.packetLoss, 0.5, td.packetLoss, 0.0, 10.0),
         p.rekeys + (if td.rekey then 1 else 0),
         p.authFailures + (if td.authFailure then 1 else 0))
  }

  /** What the pass's optional crypto error adds to the counter of type `e`. */
  function CryptoIncrement(o: Option<(CryptoError, int)>, e: CryptoError): int
  {
    if o.Some? && o.value.0 == e then o.value.1 else 0
  }

  /** The state gauge of a tunnel after a pass: toggled when drawn so, and only if it was ever set. */
  function PassState(states0: map<TunnelId, real>, tunnels: map<TunnelId, TunnelDraws>, t: TunnelId): real
    requires t in states0 && t in tunnels
  {
    if tunnels[t].toggle then Toggle(states0[t]) else states0[t]
  }

  /**
    One pass took `r0` to `r`: every state count took its step
    `max(0, current + change)`, every tunnel state drawn for toggling was
    toggled, and every link and path series took its step; the crypto error
    counter of the drawn type grew by the drawn count.
   */
  ghost predicate Passed(r0: Registry, d: PassDraws, r: Registry)
    requires PassDrawsOk(d)
  {
    && (forall s :: s in r.counts && r.counts[s] == WalkCount(Get(r0.counts, s, 0), d.stateChanges[s]))
    && (forall t: TunnelId :: (t in r.states <==> t in r0.states) &&
                              (t in r.states ==> r.states[t] == PassState(r0.states, d.tunnels, t)))
    && (forall t: TunnelId, dir: Direction :: (t, dir) in r.links &&
          r.links[(t, dir)] == StepLink(Get(r0.links, (t, dir), NoLink), d.links[(t, dir)]))
    && (forall t: TunnelId :: t in r.paths && r.paths[t] == StepPath(Get(r0.paths, t, NoPath), d.tunnels[t]))
    && (forall e :: Get(r.cryptoErrors, e, 0) == Get(r0.cryptoErrors, e, 0) + CryptoIncrement(d.crypto, e))
  }

  /** `for state in tunnel_states`: every state count takes its step. */
  method CountLoop(counts0: map<TunnelState, int>, changes: map<TunnelState, int>) returns (counts: map<TunnelState, int>)
    requires forall s :: s in changes
    ensures forall s :: s in counts && counts[s] == WalkCount(Get(counts0, s, 0), changes[s])
  {
    counts := counts0;
    var i := 0;
    while i < |TunnelStates|
      invariant 0 <= i <= |TunnelStates|
      invariant forall s :: if TunnelStateIndex(s) < i then s in counts && counts[s] == WalkCount(Get(counts0, s, 0), changes[s])
                            else Get(counts, s, 0) == Get(counts0, s, 0)
    {
      var s := TunnelStates[i];
      counts := counts[s := WalkCount(Get(counts, s, 0), changes[s])];
      i := i + 1;
    }
  }

  /** Every tunnel state before place i took its toggle, if drawn; the rest are as in `states0`. */
  ghost predicate StatesToggledUpTo(states: map<TunnelId, real>, states0: map<TunnelId, real>,
                                    tunnels: map<TunnelId, TunnelDraws>, i: nat)
    requires forall t: TunnelId :: t in tunnels
  {
    forall t: TunnelId :: (t in states <==> t in states0) &&
      (t in states ==> states[t] == if TunnelIndex(t) < i then PassState(states0, tunnels, t) else states0[t])
  }

  lemma StatesToggledUpToStep(states: map<TunnelId, real>, states': map<TunnelId, real>, states0: map<TunnelId, real>,
                              tunnels: map<TunnelId, TunnelDraws>, i: nat)
    requires i < |Tunnels| && forall t: TunnelId :: t in tunnels
    requires StatesToggledUpTo(states, states0, tunnels, i)
    requires states' == if tunnels[Tunnels[i]].toggle && Tunnels[i] in states
                        then states[Tunnels[i] := Toggle(states[Tunnels[i]])] else states
    ensures StatesToggledUpTo(states', states0, tunnels, i + 1)
  {
    forall t: TunnelId ensures (t in states' <==> t in states0) &&
      (t in states' ==> states'[t] == if TunnelIndex(t) < i + 1 then PassState(states0, tunnels, t) else states0[t])
    {
      if t == Tunnels[i] {
        assert TunnelIndex(t) == i;
      } else {
        assert TunnelIndex(t) != i;
      }
    }
  }

  /** The body of `for tunnel_id in tunnel_ids` for the tunnel at place i. */
  method TunnelStep(states: map<TunnelId, real>, links: map<(TunnelId, Direction), Link>, paths: map<TunnelId, Path>,
                    i: nat, r0: Registry, d: PassDraws)
    returns (states': map<TunnelId, real>, links': map<(TunnelId, Direction), Link>, paths': map<TunnelId, Path>)
    requires i < |Tunnels| && PassDrawsOk(d)
    requires StatesToggledUpTo(states, r0.states, d.tunnels, i)
    requires LinksUpdatedUpTo(links, r0.links, d.links, StepLink, i)
    requires PathsUpdatedUpTo(paths, r0.paths, d.tunnels, StepPath, i)
    ensures StatesToggledUpTo(states', r0.states, d.tunnels, i + 1)
    ensures LinksUpdatedUpTo(links', r0.links, d.links, StepLink, i + 1)
    ensures PathsUpdatedUpTo(paths', r0.paths, d.tunnels, StepPath, i + 1)
  {
    var t := Tunnels[i];
    states' := states;
    // The scan of the state gauge's series finds the one series of `t`, if it was ever set.
    if d.tunnels[t].toggle && t in states {
      states' := states[t := Toggle(states[t])];
    }
    StatesToggledUpToStep(states, states', r0.states, d.tunnels, i);
    links' := DirectionLoop(links, t, d.links, StepLink);
    LinksUpdatedUpToStep(links, links', r0.links, d.links, StepLink, i);
    PathsUpdatedUpToStep(paths, r0.paths, d.tunnels, StepPath, i);
    paths' := paths[t := StepPath(Get(paths, t, NoPath), d.tunnels[t])];
  }

  /** One pass of the loop: the state counts, every tunnel in order, then the crypto errors. */
  method SimulatePass(r: Registry, d: PassDraws) returns (r': Registry)
    requires PassDrawsOk(d) && Bounded(r)
    ensures Passed(r, d, r') && Bounded(r')
  {
    var counts := CountLoop(r.counts, d.stateChanges);
    var states, links, paths := r.states, r.links, r.paths;
    var i := 0;
    while i < |Tunnels|
      invariant 0 <= i <= |Tunnels|
      invariant StatesToggledUpTo(states, r.states, d.tunnels, i)
      invariant LinksUpdatedUpTo(links, r.links, d.links, StepLink, i)
      invariant PathsUpdatedUpTo(paths, r.paths, d.tunnels, StepPath, i)
    {
      states, links, paths := TunnelStep(states, links, paths, i, r, d);
      i := i + 1;
    }
    var crypto := r.cryptoErrors;
    if d.crypto.Some? {
      crypto := Inc(crypto, d.crypto.value.0, d.crypto.value.1);
    }
    r' := Registry(counts, states, links, paths, crypto);
    PassDone(r, d, r');
    PassKeepsBounds(r, d, r');
  }

  /** After the last tunnel, the loop's account of every tunnel is the pass's. */
  lemma PassDone(r0: Registry, d: PassDraws, r: Registry)
    requires PassDrawsOk(d)
    requires forall s :: s in r.counts && r.counts[s] == WalkCount(Get(r0.counts, s, 0), d.stateChanges[s])
    requires StatesToggledUpTo(r.states, r0.states, d.tunnels, |Tunnels|)
    requires LinksUpdatedUpTo(r.links, r0.links, d.links, StepLink, |Tunnels|)
    requires PathsUpdatedUpTo(r.paths, r0.paths, d.tunnels, StepPath, |Tunnels|)
    requires forall e :: Get(r.cryptoErrors, e, 0) == Get(r0.cryptoErrors, e, 0) + CryptoIncrement(d.crypto, e)
    ensures Passed(r0, d, r)
  {
    forall t: TunnelId ensures TunnelIndex(t) < |Tunnels| {
    }
  }

  /** A pass keeps the registry bounded. */
  lemma PassKeepsBounds(r0: Registry, d: PassDraws, r: Registry)
    requires PassDrawsOk(d) && Bounded(r0) && Passed(r0, d, r)
    ensures Bounded(r)
  {
    forall t: TunnelId | t in r.states ensures r.states[t] == 0.0 || r.states[t] == 1.0 {
      ToggleIsDown(r0.states[t]);
    }
    forall t: TunnelId, dir: Direction | (t, dir) in r.links ensures LinkBounded(r.links[(t, dir)]) {
      var l0 := Get(r0.links, (t, dir), NoLink);
      assert LinkBounded(l0) || l0 == NoLink;
      WalkWithin(l0.bandwidth, 50.0, d.links[(t, dir)].bandwidth, 1.0, 1000.0);
    }
    forall t: TunnelId | t in r.paths ensures PathBounded(r.paths[t]) {
      var p0 := Get(r0.paths, t, NoPath);
      assert PathBounded(p0) || p0 == NoPath;
      WalkAboveWithin(p0.latency, 20.0, d.tunnels[t].latency, 1.0);
      WalkWithin(p0.packetLoss, 0.5, d.tunnels[t].packetLoss, 0.0, 10.0);
    }
  }

  /** Toggling always yields 0: the `or 1` reads a down tunnel as up. */
  lemma ToggleIsDown(state: real)
    requires state == 0.0 || state == 1.0
    ensures Toggle(state) == 0.0
  {
  }

  /**
    A pass leaves a tunnel up exactly when it was up and was not drawn for
    toggling: a down tunnel stays down, and a toggled tunnel ends down.
   */
  lemma PassStates(r0: Registry, d: PassDraws, r: Registry)
    requires PassDrawsOk(d) && Bounded(r0) && Passed(r0, d, r)
    ensures forall t: TunnelId :: t in r.states ==> (r.states[t] == 1.0 <==> r0.states[t] == 1.0 && !d.tunnels[t].toggle)
    ensures forall t: TunnelId :: t in r.states && r0.states[t] == 0.0 ==> r.states[t] == 0.0
  {
    forall t: TunnelId | t in r.states && d.tunnels[t].toggle ensures r.states[t] == 0.0 {
      ToggleIsDown(r0.states[t]);
    }
  }

  /**
    Over any run of passes from a bounded registry, a tunnel that is down
    stays down: no pass ever sets a state back to 1.
   */
  lemma {:induction false} DownStaysDown(rs: seq<Registry>, ds: seq<PassDraws>, t: TunnelId)
    requires |rs| == |ds| + 1 && Bounded(rs[0])
    requires forall i :: 0 <= i < |ds| ==> PassDrawsOk(ds[i]) && Passed(rs[i], ds[i], rs[i + 1])
    requires t in rs[0].states && rs[0].states[t] == 0.0
    ensures Bounded(rs[|ds|])
    ensures t in rs[|ds|].states && rs[|ds|].states[t] == 0.0
    decreases |ds|
  {
    if |ds| > 0 {
      var n := |ds| - 1;
      DownStaysDown(rs[..n + 1], ds[..n], t);
      PassKeepsBounds(rs[n], ds[n], rs[n + 1]);
      PassStates(rs[n], ds[n], rs[n + 1]);
    }
  }

  /** The state counts stay non-negative and move by at most 2 per pass. */
  lemma PassCounts(r0: Registry, d: PassDraws, r: Registry)
    requires PassDrawsOk(d) && Bounded(r0) && Passed(r0, d, r)
    ensures forall s :: r.counts[s] >= 0 && AbsInt(r.counts[s] - Get(r0.counts, s, 0)) <= 2
  {
  }

  /**
    The packet counter of a (tunnel, direction) grows by 100 to 1000 per
    pass, and its byte counter by 500 to 1500 times as much.
   */
  lemma PassTraffic(r0: Registry, d: PassDraws, r: Registry)
    requires PassDrawsOk(d) && Passed(r0, d, r)
    ensures forall t: TunnelId, dir: Direction ::
              var packets := r.links[(t, dir)].packets - Get(r0.links, (t, dir), NoLink).packets;
              var bytes := r.links[(t, dir)].bytes - Get(r0.links, (t, dir), NoLink).bytes;
              100 <= packets <= 1000 && 500 * packets <= bytes <= 1500 * packets
  {
    forall t: TunnelId, dir: Direction ensures
      var packets := r.links[(t, dir)].packets - Get(r0.links, (t, dir), NoLink).packets;
      var bytes := r.links[(t, dir)].bytes - Get(r0.links, (t, dir), NoLink).bytes;
      100 <= packets <= 1000 && 500 * packets <= bytes <= 1500 * packets
    {
      var ld := d.links[(t, dir)];
      ProductBetween(ld.packets, ld.packetSize, 500, 1500);
    }
  }

  /** `n * lo <= n * size <= n * hi` for a count `n` and a size in [lo, hi]. */
  lemma ProductBetween(n: int, size: int, lo: int, hi: int)
    requires n >= 0 && lo <= size <= hi
    ensures lo * n <= n * size <= hi * n
  {
    assert n * size - lo * n == n * (size - lo);
    assert hi * n - n * size == n * (hi - size);
  }

  /**
    The zero-as-missing quirk of `or` on a tunnel's path: a packet loss
    clamped to 0 restarts the next pass from 0.5, and a latency that reads 0
    (never written) from 20.
   */
  lemma StepPathRestartFromZero(p: Path, td: TunnelDraws)
    requires -5.0 <= td.latency <= 5.0 && -0.2 <= td.packetLoss <= 0.2
    ensures p.packetLoss == 0.0 ==> StepPath(p, td).packetLoss == 0.5 + td.packetLoss
    ensures p.latency == 0.0 ==> StepPath(p, td).latency == 20.0 + td.latency
  {
    WalkAboveWithin(p.latency, 20.0, td.latency, 1.0);
    WalkWithin(p.packetLoss, 0.5, td.packetLoss, 0.0, 10.0);
  }

  /** Over a pass, every tunnel whose loss gauge reads 0 steps it from 0.5, not from 0. */
  lemma PassLossRestart(r0: Registry, d: PassDraws, r: Registry)
    requires PassDrawsOk(d) && Passed(r0, d, r)
    ensures forall t: TunnelId :: t in r0.paths && r0.paths[t].packetLoss == 0.0 ==>
              r.paths[t].packetLoss == 0.5 + d.tunnels[t].packetLoss
  {
    forall t: TunnelId | t in r0.paths && r0.paths[t].packetLoss == 0.0
      ensures r.paths[t].packetLoss == 0.5 + d.tunnels[t].packetLoss
    {
      StepPathRestartFromZero(r0.paths[t], d.tunnels[t]);
    }
  }

  /**
    Per pass, each tunnel's rekey and authentication-failure counters grow by
    0 or 1, and the crypto error counters grow for at most one type, by 1 to 3.
   */
  lemma PassEvents(r0: Registry, d: PassDraws, r: Registry)
    requires PassDrawsOk(d) && Passed(r0, d, r)
    ensures forall t: TunnelId :: r.paths[t].rekeys - Get(r0.paths, t, NoPath).rekeys == (if d.tunnels[t].rekey then 1 else 0)
    ensures forall t: TunnelId :: r.paths[t].authFailures - Get(r0.paths, t, NoPath).authFailures ==
                                  (if d.tunnels[t].authFailure then 1 else 0)
    ensures forall e :: 0 <= Get(r.cryptoErrors, e, 0) - Get(r0.cryptoErrors, e, 0) <= 3
    ensures forall e, e' ::
              (Get(r.cryptoErrors, e, 0) > Get(r0.cryptoErrors, e, 0) &&
               Get(r.cryptoErrors, e', 0) > Get(r0.cryptoErrors, e', 0)) ==> e == e'
  {
  }

  // ---------------------------------------------------------------------------
  // The exporter process

  /**
    The exporter process: the module-level instruments that
    `generate_ipsec_metrics` seeds once and then updates in place on every
    pass of its loop. `simulating` records that the seeding ran, so the
    loop is running.
   */
  class Exporter {
    var registry: Registry
    var simulating: bool

    ghost predicate Valid()
      reads this
    {
      Bounded(registry)
    }

    /** Process start: every instrument is registered and unwritten. */
    constructor ()
      ensures Valid() && registry == Fresh && !simulating
    {
      registry := Fresh;
      simulating := false;
      FreshBounded();
    }

    /**
      The start of `generate_ipsec_metrics`: with the simulation disabled it
      returns at once and writes nothing; otherwise it seeds every tunnel.
     */
    method Start(enabled: bool, d: SeedDraws)
      requires Valid() && !simulating && SeedDrawsOk(d)
      modifies this
      ensures Valid() && simulating == enabled
      ensures !enabled ==> registry == old(registry)
      ensures enabled ==> Seeded(old(registry), d, registry)
    {
      if enabled {
        registry := SeedMetrics(registry, d);
        simulating := true;
      }
    }

    /** One pass of the `while True` loop. */
    method Pass(d: PassDraws)
      requires Valid() && simulating && PassDrawsOk(d)
      modifies this
      ensures Valid() && simulating && Passed(old(registry), d, registry)
    {
      registry := SimulatePass(registry, d);
    }
  }
}
