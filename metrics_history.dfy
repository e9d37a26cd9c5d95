/**
  The aggregating simulator's `metrics_history`: five parallel lists that the
  dashboard API returns, each capped at `MAX_HISTORY_SIZE` entries by dropping
  the oldest entry before appending.

  This module gives the lists as a value (`History`), the update each of the four
  generators makes to it, and what a sequence of complete ticks leaves in it.
 */
module MetricsHistory {

  /** `MAX_HISTORY_SIZE`. */
  const MaxHistorySize: nat := 100

  /** `if len(h) >= MAX_HISTORY_SIZE: h.pop(0)`. */
  function DropOldest<T>(h: seq<T>): seq<T>
  {
    if |h| >= MaxHistorySize then h[1..] else h
  }

  /**
    Drop the oldest entry when full, then append: the result is the tail of
    `h + [x]` of length at most MaxHistorySize (when `h` was within the cap).
   */
  function Push<T>(h: seq<T>, x: T): (r: seq<T>)
    ensures |h| <= MaxHistorySize ==> 1 <= |r| <= MaxHistorySize
    ensures |r| == if |h| >= MaxHistorySize then |h| else |h| + 1
    ensures r[|r| - 1] == x
  {
    if |h| >= MaxHistorySize then h[1..] + [x] else h + [x]
  }

  /** What Push keeps is the newest part of `h + [x]`. */
  lemma PushIsSuffix<T>(h: seq<T>, x: T)
    ensures |Push(h, x)| <= |h| + 1 && Push(h, x) == (h + [x])[|h| + 1 - |Push(h, x)|..]
  {
    if |h| >= MaxHistorySize {
      assert h[1..] + [x] == (h + [x])[1..];
    } else {
      assert h + [x] == (h + [x])[0..];
    }
  }

  /**
    The IPsec and mobile lists: drop the oldest entry when full, then append
    only while the list is shorter than the timestamp list (`axis`).
   */
  function PushBehind<T>(h: seq<T>, x: T, axis: nat): (r: seq<T>)
    ensures |h| <= axis ==> |r| <= axis
    ensures |h| <= MaxHistorySize ==> |r| <= MaxHistorySize
    ensures r == DropOldest(h) + [x] <==> |DropOldest(h)| < axis
    ensures r == DropOldest(h) <==> |DropOldest(h)| >= axis
  {
    var h' := DropOldest(h);
    if |h'| < axis then h' + [x] else h'
  }

  /** `metrics_history`: the JSON object `/api/metrics` returns. */
  datatype History = History(
    timestamp: seq<real>,
    diameterRequests: seq<int>,
    voipCalls: seq<real>,
    ipsecTunnels: seq<int>,
    mobileSubscribers: seq<int>)

  /** The history at process start: every list empty. */
  const Empty: History := History([], [], [], [], [])

  /**
    What the four generators keep true of the lists: none longer than the cap,
    `timestamp` and `voip_calls` of equal length, and the IPsec and mobile lists
    no longer than `timestamp`.
   */
  predicate WellFormed(h: History)
  {
    && |h.timestamp| <= MaxHistorySize
    && |h.diameterRequests| <= MaxHistorySize
    && |h.voipCalls| == |h.timestamp|
    && |h.ipsecTunnels| <= |h.timestamp|
    && |h.mobileSubscribers| <= |h.timestamp|
  }

  /** `generate_diameter_metrics`: pop when full, append the request total. */
  function RecordDiameter(h: History, total: int): (r: History)
    requires WellFormed(h)
    ensures WellFormed(r)
  {
    h.(diameterRequests := Push(h.diameterRequests, total))
  }

  /**
    `generate_voip_metrics`: when `timestamp` is full, pop the oldest timestamp
    and the oldest call count together; then append both.
   */
  function RecordVoip(h: History, time: real, calls: real): (r: History)
    requires WellFormed(h)
    ensures WellFormed(r)
    ensures |r.timestamp| == |r.voipCalls| >= 1
    ensures r.timestamp == Push(h.timestamp, time) && r.voipCalls == Push(h.voipCalls, calls)
    ensures r.diameterRequests == h.diameterRequests
    ensures r.ipsecTunnels == h.ipsecTunnels && r.mobileSubscribers == h.mobileSubscribers
  {
    var full := |h.timestamp| >= MaxHistorySize;
    h.(timestamp := (if full then h.timestamp[1..] else h.timestamp) + [time],
       voipCalls := (if full then h.voipCalls[1..] else h.voipCalls) + [calls])
  }

  /** `generate_ipsec_metrics`: pop when full, append only while behind `timestamp`. */
  function RecordIpsec(h: History, total: int): (r: History)
    requires WellFormed(h)
    ensures WellFormed(r)
  {
    h.(ipsecTunnels := PushBehind(h.ipsecTunnels, total, |h.timestamp|))
  }

  /** `generate_mobile_metrics`: pop when full, append only while behind `timestamp`. */
  function RecordMobile(h: History, total: int): (r: History)
    requires WellFormed(h)
    ensures WellFormed(r)
  {
    h.(mobileSubscribers := PushBehind(h.mobileSubscribers, total, |h.timestamp|))
  }

  /** The aggregates one pass of `generate_metrics` appends, in the order they are appended. */
  datatype Point = Point(diameterTotal: int, time: real, voipCalls: real, ipsecTotal: int, mobileTotal: int)

  function TimeOf(p: Point): real { p.time }
  function DiameterOf(p: Point): int { p.diameterTotal }
  function VoipOf(p: Point): real { p.voipCalls }
  function IpsecOf(p: Point): int { p.ipsecTotal }
  function MobileOf(p: Point): int { p.mobileTotal }

  /** One pass of `generate_metrics`: diameter, VoIP, IPsec, then mobile. */
  function RecordTick(h: History, p: Point): (r: History)
    requires WellFormed(h)
    ensures WellFormed(r)
  {
    RecordMobile(RecordIpsec(RecordVoip(RecordDiameter(h, p.diameterTotal), p.time, p.voipCalls), p.ipsecTotal), p.mobileTotal)
  }

  /** The history after the passes `ps`, oldest first, starting from `Empty`. */
  function Replay(ps: seq<Point>): (h: History)
    ensures WellFormed(h)
  {
    if ps == [] then Empty else RecordTick(Replay(ps[..|ps| - 1]), ps[|ps| - 1])
  }

  /** One aggregate of every pass, oldest first. */
  function Column<T>(ps: seq<Point>, f: Point -> T): (c: seq<T>)
    ensures |c| == |ps|
    ensures forall i :: 0 <= i < |ps| ==> c[i] == f(ps[i])
  {
    if ps == [] then [] else Column(ps[..|ps| - 1], f) + [f(ps[|ps| - 1])]
  }

  /** The last min(|s|, MaxHistorySize) entries of `s`, oldest first. */
  function Window<T>(s: seq<T>): seq<T>
  {
    if |s| <= MaxHistorySize then s else s[|s| - MaxHistorySize..]
  }

  lemma PushWindow<T>(s: seq<T>, x: T)
    ensures Push(Window(s), x) == Window(s + [x])
  {
    if |s| >= MaxHistorySize {
      assert Window(s)[1..] + [x] == (s + [x])[|s + [x]| - MaxHistorySize..];
    }
  }

  lemma PushBehindWindow<T>(s: seq<T>, x: T)
    ensures PushBehind(Window(s), x, |Window(s + [x])|) == Window(s + [x])
  {
    PushWindow(s, x);
  }

  /**
    After the passes `ps`, every list of the history holds the last
    min(|ps|, MaxHistorySize) values of its aggregate, oldest first; in
    particular all five lists have that length.
   */
  lemma {:induction false} ReplayWindow(ps: seq<Point>)
    ensures Replay(ps).timestamp == Window(Column(ps, TimeOf))
    ensures Replay(ps).diameterRequests == Window(Column(ps, DiameterOf))
    ensures Replay(ps).voipCalls == Window(Column(ps, VoipOf))
    ensures Replay(ps).ipsecTunnels == Window(Column(ps, IpsecOf))
    ensures Replay(ps).mobileSubscribers == Window(Column(ps, MobileOf))
  {
    if ps != [] {
      var init, p := ps[..|ps| - 1], ps[|ps| - 1];
      ReplayWindow(init);
      assert Column(ps, TimeOf) == Column(init, TimeOf) + [p.time];
      assert Column(ps, DiameterOf) == Column(init, DiameterOf) + [p.diameterTotal];
      assert Column(ps, VoipOf) == Column(init, VoipOf) + [p.voipCalls];
      assert Column(ps, IpsecOf) == Column(init, IpsecOf) + [p.ipsecTotal];
      assert Column(ps, MobileOf) == Column(init, MobileOf) + [p.mobileTotal];
      PushWindow(Column(init, TimeOf), p.time);
      PushWindow(Column(init, DiameterOf), p.diameterTotal);
      PushWindow(Column(init, VoipOf), p.voipCalls);
      PushBehindWindow(Column(init, IpsecOf), p.ipsecTotal);
      PushBehindWindow(Column(init, MobileOf), p.mobileTotal);
    }
  }

  /** Recording one more point is one more `RecordTick`, and one more time in the time column. */
  lemma ReplayAppend(ps: seq<Point>, p: Point)
    ensures Replay(ps + [p]) == RecordTick(Replay(ps), p)
    ensures Column(ps + [p], TimeOf) == Column(ps, TimeOf) + [p.time]
  {
    assert (ps + [p])[..|ps|] == ps;
  }

  /** A non-empty sequence is its front followed by its last element. */
  lemma FrontLast<T>(s: seq<T>)
    requires s != []
    ensures s[..|s| - 1] + [s[|s| - 1]] == s
  {
  }

  /** After n complete passes every list has exactly min(n, MaxHistorySize) entries. */
  lemma ReplayLengths(ps: seq<Point>)
    ensures var n := if |ps| <= MaxHistorySize then |ps| else MaxHistorySize;
      && |Replay(ps).timestamp| == n
      && |Replay(ps).diameterRequests| == n
      && |Replay(ps).voipCalls| == n
      && |Replay(ps).ipsecTunnels| == n
      && |Replay(ps).mobileSubscribers| == n
  {
    ReplayWindow(ps);
  }

  /** Push keeps every entry of a list within [lo, hi] when the new entry is. */
  lemma PushKeepsWithin(s: seq<real>, x: real, lo: real, hi: real)
    requires forall i :: 0 <= i < |s| ==> lo <= s[i] <= hi
    requires lo <= x <= hi
    ensures forall i :: 0 <= i < |Push(s, x)| ==> lo <= Push(s, x)[i] <= hi
  {
    PushIsSuffix(s, x);
  }

  /** PushBehind keeps every entry of a list within [lo, hi] when the new entry is. */
  lemma PushBehindKeepsWithin(s: seq<int>, x: int, axis: nat, lo: int, hi: int)
    requires forall i :: 0 <= i < |s| ==> lo <= s[i] <= hi
    requires lo <= x <= hi
    ensures forall i :: 0 <= i < |PushBehind(s, x, axis)| ==> lo <= PushBehind(s, x, axis)[i] <= hi
  {
    var r := PushBehind(s, x, axis);
    forall i | 0 <= i < |r| ensures lo <= r[i] <= hi {
      if |s| >= MaxHistorySize && i < |s| - 1 {
        assert r[i] == s[i + 1];
      }
    }
  }

  /** PushBehind keeps every entry of a list at least lo when the new entry is. */
  lemma PushBehindKeepsAtLeast(s: seq<int>, x: int, axis: nat, lo: int)
    requires forall i :: 0 <= i < |s| ==> lo <= s[i]
    requires lo <= x
    ensures forall i :: 0 <= i < |PushBehind(s, x, axis)| ==> lo <= PushBehind(s, x, axis)[i]
  {
    var r := PushBehind(s, x, axis);
    forall i | 0 <= i < |r| ensures lo <= r[i] {
      if |s| >= MaxHistorySize && i < |s| - 1 {
        assert r[i] == s[i + 1];
      }
    }
  }

  /** How much entry i + 1 of `s` lies above entry i. */
  function Rise(s: seq<int>, i: nat): int
    requires i + 1 < |s|
  {
    s[i + 1] - s[i]
  }

  /** Consecutive entries of `s` differ by between lo and hi. */
  predicate Gaps(s: seq<int>, lo: int, hi: int)
  {
    forall i: nat :: i + 1 < |s| ==> lo <= Rise(s, i) <= hi
  }

  /** Dropping the oldest entry and appending one that is lo..hi above the newest keeps the gaps. */
  lemma PushKeepsGaps(s: seq<int>, x: int, lo: int, hi: int)
    requires Gaps(s, lo, hi)
    requires s != [] ==> lo <= x - s[|s| - 1] <= hi
    ensures Gaps(Push(s, x), lo, hi)
  {
    var r := Push(s, x);
    PushIsSuffix(s, x);
    var k := |s| + 1 - |r|;
    forall i: nat | i + 1 < |r| ensures lo <= Rise(r, i) <= hi {
      assert r[i] == (s + [x])[k + i] && r[i + 1] == (s + [x])[k + i + 1];
      if k + i + 1 < |s| {
        assert Rise(r, i) == Rise(s, k + i);
      }
    }
  }
}
