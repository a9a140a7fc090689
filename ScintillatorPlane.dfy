/**
 * The integer bookkeeping of one hodoscope scintillator plane: the walk over
 * the sorted raw-hit list that belongs to this plane, the signal lists it
 * fills, the search for the first TDC time inside the time window, the
 * count of paddles with a good TDC, and the pedestal accumulators.
 */
module ScintillatorPlane {

  import opened Common

  // ---------------------------------------------------------------------
  // Raw hits

  /** One sample of a multihit TDC: GetTimeRaw and GetTime (the reference-subtracted time). */
  datatype TdcSample = TdcSample(timeRaw: int, time: int)

  /** One ADC pulse: raw integral, raw amplitude, raw time. */
  datatype AdcPulse = AdcPulse(intRaw: int, ampRaw: int, timeRaw: int)

  /**
   * One PMT's ADC: the raw pedestal, the pulses, and the value GetPulseIntRaw()
   * returns when called without a pulse index.
   */
  datatype AdcChannel = AdcChannel(pedRaw: int, pulses: seq<AdcPulse>, pulseIntRaw: int)

  /** All the data of one paddle for one trigger, both PMTs. */
  datatype RawHodoHit = RawHodoHit(
    plane: int, counter: int,
    posTdc: seq<TdcSample>, negTdc: seq<TdcSample>,
    posAdc: AdcChannel, negAdc: AdcChannel)
  {
    function Tdc(side: Side): seq<TdcSample>
    {
      if side == Pos then posTdc else negTdc
    }

    function Adc(side: Side): AdcChannel
    {
      if side == Pos then posAdc else negAdc
    }
  }

  datatype Side = Pos | Neg

  /** A THcSignalHit: paddle number and one value. */
  datatype SignalHit = SignalHit(paddle: int, data: int)

  /** The integer part of a THcHodoHit: paddle and the two TDC values found. */
  datatype HodoHit = HodoHit(paddle: int, tdcPos: int, tdcNeg: int)

  // ---------------------------------------------------------------------
  // The walk over this plane's hits

  /**
   * Where the walk that starts at `start` stops: the first hit whose plane
   * is beyond planeNum, or the end of the list.
   */
  function WalkEnd(hits: seq<RawHodoHit>, start: nat, planeNum: int): (r: nat)
    ensures start <= r
    decreases |hits| - start
  {
    if start >= |hits| || hits[start].plane > planeNum then start
    else WalkEnd(hits, start + 1, planeNum)
  }

  /** The hits a walk from `start` visits, in order. */
  function Walked(hits: seq<RawHodoHit>, start: nat, planeNum: int): seq<RawHodoHit>
    decreases |hits| - start
  {
    if start >= |hits| || hits[start].plane > planeNum then []
    else [hits[start]] + Walked(hits, start + 1, planeNum)
  }

  /** One step of the walk over a hit of this plane or an earlier one. */
  lemma WalkStep(hits: seq<RawHodoHit>, i: nat, planeNum: int, seen: seq<RawHodoHit>)
    requires i < |hits| && hits[i].plane <= planeNum
    ensures WalkEnd(hits, i, planeNum) == WalkEnd(hits, i + 1, planeNum)
    ensures Walked(hits, i, planeNum) == [hits[i]] + Walked(hits, i + 1, planeNum)
    ensures seen + Walked(hits, i, planeNum) == (seen + [hits[i]]) + Walked(hits, i + 1, planeNum)
  {
    assert Walked(hits, i, planeNum) == [hits[i]] + Walked(hits, i + 1, planeNum);
  }

  /** The walk visits nothing from a hit of a later plane or from the end of the list. */
  lemma WalkStop(hits: seq<RawHodoHit>, i: nat, planeNum: int, seen: seq<RawHodoHit>)
    requires i >= |hits| || hits[i].plane > planeNum
    ensures WalkEnd(hits, i, planeNum) == i
    ensures seen + Walked(hits, i, planeNum) == seen
  {
  }

  /**
   * The walk stops at the first hit of a later plane or at the end of the
   * list, and the hits it visits are exactly the run of hits before that
   * point, all of this plane or an earlier one.
   */
  lemma {:induction false} WalkMeaning(hits: seq<RawHodoHit>, start: nat, planeNum: int)
    requires start <= |hits|
    ensures WalkEnd(hits, start, planeNum) <= |hits|
    ensures Walked(hits, start, planeNum) == hits[start..WalkEnd(hits, start, planeNum)]
    ensures forall i :: start <= i < WalkEnd(hits, start, planeNum) ==> hits[i].plane <= planeNum
    ensures WalkEnd(hits, start, planeNum) < |hits| ==> hits[WalkEnd(hits, start, planeNum)].plane > planeNum
    decreases |hits| - start
  {
    if start < |hits| && hits[start].plane <= planeNum {
      WalkMeaning(hits, start + 1, planeNum);
      assert hits[start..WalkEnd(hits, start, planeNum)] == [hits[start]] + hits[start + 1..WalkEnd(hits, start, planeNum)];
    }
  }

  // ---------------------------------------------------------------------
  // The first TDC time inside [lo, hi]

  predicate InWindow(t: int, lo: int, hi: int)
  {
    lo <= t && t <= hi
  }

  /**
   * The result of scanning the samples for a time (plus offset) inside the
   * window: whether one was found, and the last time looked at, which is the
   * first one inside the window when found; prev when there are no samples.
   */
  function WindowScan(ts: seq<TdcSample>, offset: int, lo: int, hi: int, prev: int): (r: (bool, int))
    ensures r.0 ==> InWindow(r.1, lo, hi)
    ensures ts == [] ==> r == (false, prev)
    decreases |ts|
  {
    if ts == [] then (false, prev)
    else if InWindow(ts[0].time + offset, lo, hi) then (true, ts[0].time + offset)
    else WindowScan(ts[1..], offset, lo, hi, ts[0].time + offset)
  }

  /**
   * What the scan finds: a time inside the window exactly when there is one,
   * and then the first; otherwise the last time looked at, or prev when there
   * is no sample.
   */
  lemma {:induction false} WindowScanMeaning(ts: seq<TdcSample>, offset: int, lo: int, hi: int, prev: int)
    ensures var r := WindowScan(ts, offset, lo, hi, prev);
      && (r.0 <==> exists i :: 0 <= i < |ts| && InWindow(ts[i].time + offset, lo, hi))
      && (r.0 ==> exists k :: 0 <= k < |ts| && r.1 == ts[k].time + offset && InWindow(r.1, lo, hi)
                    && forall j :: 0 <= j < k ==> !InWindow(ts[j].time + offset, lo, hi))
      && (!r.0 && ts != [] ==> r.1 == ts[|ts| - 1].time + offset)
      && (ts == [] ==> r == (false, prev))
    decreases |ts|
  {
    if ts != [] && !InWindow(ts[0].time + offset, lo, hi) {
      var tail := ts[1..];
      WindowScanMeaning(tail, offset, lo, hi, ts[0].time + offset);
      var r := WindowScan(tail, offset, lo, hi, ts[0].time + offset);
      assert forall i :: 1 <= i < |ts| ==> ts[i] == tail[i - 1];
      if r.0 {
        var k' :| 0 <= k' < |tail| && r.1 == tail[k'].time + offset && InWindow(r.1, lo, hi)
                  && forall j :: 0 <= j < k' ==> !InWindow(tail[j].time + offset, lo, hi);
        assert ts[k' + 1] == tail[k'];
        forall j | 0 <= j < k' + 1 ensures !InWindow(ts[j].time + offset, lo, hi) {
          if j > 0 { assert ts[j] == tail[j - 1]; }
        }
      } else {
        forall i | 0 <= i < |ts| ensures !InWindow(ts[i].time + offset, lo, hi) {
          if i > 0 { assert ts[i] == tail[i - 1]; }
        }
      }
    }
  }

  /** The value the source keeps when a PMT has no TDC sample at all. */
  const NoTdc: int := -999

  /** The search loop in ProcessHits: stop at the first sample whose time plus offset is in the window. */
  method FindTdcInWindow(ts: seq<TdcSample>, offset: int, lo: int, hi: int) returns (found: bool, tdc: int)
    ensures (found, tdc) == WindowScan(ts, offset, lo, hi, NoTdc)
  {
    found, tdc := false, NoTdc;
    var thit := 0;
    while thit < |ts|
      invariant 0 <= thit <= |ts| && !found
      invariant WindowScan(ts, offset, lo, hi, NoTdc) == WindowScan(ts[thit..], offset, lo, hi, tdc)
    {
      assert ts[thit..][1..] == ts[thit + 1..];
      tdc := ts[thit].time + offset;
      if InWindow(tdc, lo, hi) {
        found := true;
        return;
      }
      thit := thit + 1;
    }
  }

  // ---------------------------------------------------------------------
  // Signal lists

  datatype TdcQuantity = TimeRaw | Time
  datatype AdcQuantity = PedRaw | PulseIntRaw | PulseAmpRaw | PulseTimeRaw

  function TdcValue(s: TdcSample, q: TdcQuantity): int
  {
    match q
    case TimeRaw => s.timeRaw
    case Time => s.time
  }

  function AdcValue(a: AdcChannel, p: AdcPulse, q: AdcQuantity): int
  {
    match q
    case PedRaw => a.pedRaw
    case PulseIntRaw => p.intRaw
    case PulseAmpRaw => p.ampRaw
    case PulseTimeRaw => p.timeRaw
  }

  /** One signal per TDC sample, each carrying the paddle number. */
  function TdcSignals(pad: int, ts: seq<TdcSample>, q: TdcQuantity): (r: seq<SignalHit>)
  {
    seq(|ts|, i requires 0 <= i < |ts| => SignalHit(pad, TdcValue(ts[i], q)))
  }

  /** One signal per ADC pulse, each carrying the paddle number. */
  function AdcSignals(pad: int, a: AdcChannel, ps: seq<AdcPulse>, q: AdcQuantity): seq<SignalHit>
  {
    seq(|ps|, i requires 0 <= i < |ps| => SignalHit(pad, AdcValue(a, ps[i], q)))
  }

  lemma TdcSignalsSnoc(pad: int, ts: seq<TdcSample>, k: nat, q: TdcQuantity)
    requires k < |ts|
    ensures TdcSignals(pad, ts[..k + 1], q) == TdcSignals(pad, ts[..k], q) + [SignalHit(pad, TdcValue(ts[k], q))]
  {
  }

  lemma AdcSignalsSnoc(pad: int, a: AdcChannel, ps: seq<AdcPulse>, k: nat, q: AdcQuantity)
    requires k < |ps|
    ensures AdcSignals(pad, a, ps[..k + 1], q) == AdcSignals(pad, a, ps[..k], q) + [SignalHit(pad, AdcValue(a, ps[k], q))]
  {
  }

  /** The lists of one PMT side that ProcessHits fills. */
  datatype SideSignals = SideSignals(
    tdcTimeRaw: seq<SignalHit>, tdcTime: seq<SignalHit>,
    adcPedRaw: seq<SignalHit>, adcPulseIntRaw: seq<SignalHit>,
    adcPulseAmpRaw: seq<SignalHit>, adcPulseTimeRaw: seq<SignalHit>,
    tdcHits: seq<SignalHit>)
  {
    function Append(o: SideSignals): SideSignals
    {
      SideSignals(tdcTimeRaw + o.tdcTimeRaw, tdcTime + o.tdcTime,
                  adcPedRaw + o.adcPedRaw, adcPulseIntRaw + o.adcPulseIntRaw,
                  adcPulseAmpRaw + o.adcPulseAmpRaw, adcPulseTimeRaw + o.adcPulseTimeRaw,
                  tdcHits + o.tdcHits)
    }
  }

  const NoSignals: SideSignals := SideSignals([], [], [], [], [], [], [])

  /** What one hit adds to one side's lists. */
  function HitSignals(h: RawHodoHit, side: Side, offset: int): (r: SideSignals)
    ensures |r.tdcTimeRaw| == |r.tdcTime| == |h.Tdc(side)|
    ensures |r.adcPedRaw| == |r.adcPulseIntRaw| == |r.adcPulseAmpRaw| == |r.adcPulseTimeRaw| == |h.Adc(side).pulses|
    ensures |r.tdcHits| == (if |h.Tdc(side)| > 0 then 1 else 0)
  {
    var ts := h.Tdc(side);
    var a := h.Adc(side);
    SideSignals(
      TdcSignals(h.counter, ts, TimeRaw), TdcSignals(h.counter, ts, Time),
      AdcSignals(h.counter, a, a.pulses, PedRaw), AdcSignals(h.counter, a, a.pulses, PulseIntRaw),
      AdcSignals(h.counter, a, a.pulses, PulseAmpRaw), AdcSignals(h.counter, a, a.pulses, PulseTimeRaw),
      if |ts| > 0 then [SignalHit(h.counter, ts[0].time + offset)] else [])
  }

  /** One side's lists after the given hits. */
  function SideLists(hs: seq<RawHodoHit>, side: Side, offset: int): (r: SideSignals)
    ensures |r.tdcHits| <= |hs|
  {
    if hs == [] then NoSignals
    else SideLists(hs[..|hs| - 1], side, offset).Append(HitSignals(hs[|hs| - 1], side, offset))
  }

  /** The good hit of a paddle, when either PMT has a TDC time inside the window. */
  function GoodHit(h: RawHodoHit, offset: int, lo: int, hi: int): (r: seq<HodoHit>)
    ensures |r| <= 1
    ensures forall k :: 0 <= k < |r| ==> r[k].paddle == h.counter && (InWindow(r[k].tdcPos, lo, hi) || InWindow(r[k].tdcNeg, lo, hi))
  {
    var p := WindowScan(h.posTdc, offset, lo, hi, NoTdc);
    var n := WindowScan(h.negTdc, offset, lo, hi, NoTdc);
    if p.0 || n.0 then [HodoHit(h.counter, p.1, n.1)] else []
  }

  function GoodHits(hs: seq<RawHodoHit>, offset: int, lo: int, hi: int): (r: seq<HodoHit>)
    ensures |r| <= |hs|
  {
    if hs == [] then []
    else GoodHits(hs[..|hs| - 1], offset, lo, hi) + GoodHit(hs[|hs| - 1], offset, lo, hi)
  }

  lemma SideListsSnoc(hs: seq<RawHodoHit>, h: RawHodoHit, side: Side, offset: int)
    ensures SideLists(hs + [h], side, offset) == SideLists(hs, side, offset).Append(HitSignals(h, side, offset))
  {
    assert (hs + [h])[..|hs|] == hs;
  }

  lemma GoodHitsSnoc(hs: seq<RawHodoHit>, h: RawHodoHit, offset: int, lo: int, hi: int)
    ensures GoodHits(hs + [h], offset, lo, hi) == GoodHits(hs, offset, lo, hi) + GoodHit(h, offset, lo, hi)
  {
    assert (hs + [h])[..|hs|] == hs;
  }

  /** Number of TDC samples on one side over the hits. */
  function TdcSampleCount(hs: seq<RawHodoHit>, side: Side): nat
  {
    if hs == [] then 0 else TdcSampleCount(hs[..|hs| - 1], side) + |hs[|hs| - 1].Tdc(side)|
  }

  /** Number of ADC pulses on one side over the hits. */
  function AdcPulseCount(hs: seq<RawHodoHit>, side: Side): nat
  {
    if hs == [] then 0 else AdcPulseCount(hs[..|hs| - 1], side) + |hs[|hs| - 1].Adc(side).pulses|
  }

  /** Number of hits with at least one TDC sample on one side. */
  function HitsWithTdc(hs: seq<RawHodoHit>, side: Side): nat
  {
    if hs == [] then 0 else HitsWithTdc(hs[..|hs| - 1], side) + (if |hs[|hs| - 1].Tdc(side)| > 0 then 1 else 0)
  }

  /** The counters of a list of hits. */
  function CountersOf(hs: seq<RawHodoHit>): set<int>
  {
    set h | h in hs :: h.counter
  }

  /** Every signal in the list carries the counter of one of the hits. */
  predicate PaddlesFrom(sigs: seq<SignalHit>, hs: seq<RawHodoHit>)
  {
    forall k :: 0 <= k < |sigs| ==> sigs[k].paddle in CountersOf(hs)
  }

  lemma PaddlesExtend(a: seq<SignalHit>, b: seq<SignalHit>, hs: seq<RawHodoHit>)
    requires |hs| > 0 && PaddlesFrom(a, hs[..|hs| - 1])
    requires forall k :: 0 <= k < |b| ==> b[k].paddle == hs[|hs| - 1].counter
    ensures PaddlesFrom(a + b, hs)
  {
    var init := hs[..|hs| - 1];
    assert CountersOf(init) <= CountersOf(hs) by {
      forall c | c in CountersOf(init) ensures c in CountersOf(hs) {
        var h :| h in init && h.counter == c;
        assert h in hs;
      }
    }
    assert hs[|hs| - 1] in hs;
    forall k | 0 <= k < |a + b| ensures (a + b)[k].paddle in CountersOf(hs) {
      if k < |a| {
        assert (a + b)[k] == a[k];
      } else {
        assert (a + b)[k] == b[k - |a|];
      }
    }
  }

  /**
   * The lengths of one side's lists: one TDC signal per sample, one ADC
   * signal per pulse, one first-TDC signal per hit with a TDC sample.
   */
  lemma {:induction false} SideListsLengths(hs: seq<RawHodoHit>, side: Side, offset: int)
    ensures var l := SideLists(hs, side, offset);
      && |l.tdcTimeRaw| == TdcSampleCount(hs, side) && |l.tdcTime| == TdcSampleCount(hs, side)
      && |l.adcPedRaw| == AdcPulseCount(hs, side) && |l.adcPulseIntRaw| == AdcPulseCount(hs, side)
      && |l.adcPulseAmpRaw| == AdcPulseCount(hs, side) && |l.adcPulseTimeRaw| == AdcPulseCount(hs, side)
      && |l.tdcHits| == HitsWithTdc(hs, side) <= |hs|
  {
    if hs != [] {
      SideListsLengths(hs[..|hs| - 1], side, offset);
    }
  }

  /** Every signal in every list of one side carries the counter of one of the hits walked. */
  lemma {:induction false} SideListsPaddles(hs: seq<RawHodoHit>, side: Side, offset: int)
    ensures var l := SideLists(hs, side, offset);
      && PaddlesFrom(l.tdcTimeRaw, hs) && PaddlesFrom(l.tdcTime, hs)
      && PaddlesFrom(l.adcPedRaw, hs) && PaddlesFrom(l.adcPulseIntRaw, hs)
      && PaddlesFrom(l.adcPulseAmpRaw, hs) && PaddlesFrom(l.adcPulseTimeRaw, hs)
      && PaddlesFrom(l.tdcHits, hs)
  {
    if hs != [] {
      var init := hs[..|hs| - 1];
      SideListsPaddles(init, side, offset);
      var l, m := SideLists(init, side, offset), HitSignals(hs[|hs| - 1], side, offset);
      PaddlesExtend(l.tdcTimeRaw, m.tdcTimeRaw, hs);
      PaddlesExtend(l.tdcTime, m.tdcTime, hs);
      PaddlesExtend(l.adcPedRaw, m.adcPedRaw, hs);
      PaddlesExtend(l.adcPulseIntRaw, m.adcPulseIntRaw, hs);
      PaddlesExtend(l.adcPulseAmpRaw, m.adcPulseAmpRaw, hs);
      PaddlesExtend(l.adcPulseTimeRaw, m.adcPulseTimeRaw, hs);
      PaddlesExtend(l.tdcHits, m.tdcHits, hs);
    }
  }

  /** A paddle has a good TDC when either PMT has a sample whose time plus offset is inside the window. */
  predicate HasGoodTdc(h: RawHodoHit, offset: int, lo: int, hi: int)
  {
    || (exists i :: 0 <= i < |h.posTdc| && InWindow(h.posTdc[i].time + offset, lo, hi))
    || (exists i :: 0 <= i < |h.negTdc| && InWindow(h.negTdc[i].time + offset, lo, hi))
  }

  /**
   * A paddle yields a good hit exactly when it has a good TDC; the hit then
   * holds, per side, the first in-window time, or the last time looked at
   * (-999 when there was none) on a side without one.
   */
  lemma GoodHitMeaning(h: RawHodoHit, offset: int, lo: int, hi: int)
    ensures |GoodHit(h, offset, lo, hi)| == (if HasGoodTdc(h, offset, lo, hi) then 1 else 0)
    ensures HasGoodTdc(h, offset, lo, hi) ==>
      var g := GoodHit(h, offset, lo, hi)[0];
      && g.paddle == h.counter
      && (InWindow(g.tdcPos, lo, hi) || InWindow(g.tdcNeg, lo, hi))
      && (h.posTdc == [] ==> g.tdcPos == NoTdc)
      && (h.negTdc == [] ==> g.tdcNeg == NoTdc)
  {
    WindowScanMeaning(h.posTdc, offset, lo, hi, NoTdc);
    WindowScanMeaning(h.negTdc, offset, lo, hi, NoTdc);
  }

  /** Number of paddles with a good TDC. */
  function GoodTdcCount(hs: seq<RawHodoHit>, offset: int, lo: int, hi: int): nat
  {
    if hs == [] then 0
    else GoodTdcCount(hs[..|hs| - 1], offset, lo, hi) + (if HasGoodTdc(hs[|hs| - 1], offset, lo, hi) then 1 else 0)
  }

  /**
   * The good hits are one per paddle with a good TDC, so nScinHits never
   * exceeds the number of hits walked; each carries a walked paddle and a
   * time inside the window on at least one side.
   */
  lemma {:induction false} GoodHitsMeaning(hs: seq<RawHodoHit>, offset: int, lo: int, hi: int)
    ensures |GoodHits(hs, offset, lo, hi)| == GoodTdcCount(hs, offset, lo, hi) <= |hs|
    ensures forall k :: 0 <= k < |GoodHits(hs, offset, lo, hi)| ==>
      var g := GoodHits(hs, offset, lo, hi)[k];
      (exists i :: 0 <= i < |hs| && g.paddle == hs[i].counter)
      && (InWindow(g.tdcPos, lo, hi) || InWindow(g.tdcNeg, lo, hi))
  {
    if hs != [] {
      var init, h := hs[..|hs| - 1], hs[|hs| - 1];
      GoodHitsMeaning(init, offset, lo, hi);
      GoodHitMeaning(h, offset, lo, hi);
      var a: seq<HodoHit>, b: seq<HodoHit> := GoodHits(init, offset, lo, hi), GoodHit(h, offset, lo, hi);
      assert GoodHits(hs, offset, lo, hi) == a + b;
      forall k | 0 <= k < |a + b|
        ensures (exists i :: 0 <= i < |hs| && (a + b)[k].paddle == hs[i].counter)
             && (InWindow((a + b)[k].tdcPos, lo, hi) || InWindow((a + b)[k].tdcNeg, lo, hi))
      {
        if k < |a| {
          var i :| 0 <= i < |init| && a[k].paddle == init[i].counter;
          assert hs[i] == init[i];
        } else {
          assert (a + b)[k] == b[0];
          assert hs[|hs| - 1] == h;
        }
      }
    }
  }

  /** Copies one hit's samples and pulses of one side into signal lists (the four inner loops of ProcessHits). */
  method CollectSide(h: RawHodoHit, side: Side, offset: int) returns (s: SideSignals)
    ensures s == HitSignals(h, side, offset)
  {
    var pad := h.counter;
    var ts := h.Tdc(side);
    var timeRaw, time := [], [];
    var thit := 0;
    while thit < |ts|
      invariant 0 <= thit <= |ts|
      invariant timeRaw == TdcSignals(pad, ts[..thit], TimeRaw)
      invariant time == TdcSignals(pad, ts[..thit], Time)
    {
      TdcSignalsSnoc(pad, ts, thit, TimeRaw);
      TdcSignalsSnoc(pad, ts, thit, Time);
      timeRaw := timeRaw + [SignalHit(pad, ts[thit].timeRaw)];
      time := time + [SignalHit(pad, ts[thit].time)];
      thit := thit + 1;
    }
    assert ts[..thit] == ts;
    var a := h.Adc(side);
    var pedRaw, intRaw, ampRaw, pulseTimeRaw := [], [], [], [];
    var ip := 0;
    while ip < |a.pulses|
      invariant 0 <= ip <= |a.pulses|
      invariant pedRaw == AdcSignals(pad, a, a.pulses[..ip], PedRaw)
      invariant intRaw == AdcSignals(pad, a, a.pulses[..ip], PulseIntRaw)
      invariant ampRaw == AdcSignals(pad, a, a.pulses[..ip], PulseAmpRaw)
      invariant pulseTimeRaw == AdcSignals(pad, a, a.pulses[..ip], PulseTimeRaw)
    {
      AdcSignalsSnoc(pad, a, a.pulses, ip, PedRaw);
      AdcSignalsSnoc(pad, a, a.pulses, ip, PulseIntRaw);
      AdcSignalsSnoc(pad, a, a.pulses, ip, PulseAmpRaw);
      AdcSignalsSnoc(pad, a, a.pulses, ip, PulseTimeRaw);
      var p := a.pulses[ip];
      pedRaw := pedRaw + [SignalHit(pad, a.pedRaw)];
      intRaw := intRaw + [SignalHit(pad, p.intRaw)];
      ampRaw := ampRaw + [SignalHit(pad, p.ampRaw)];
      pulseTimeRaw := pulseTimeRaw + [SignalHit(pad, p.timeRaw)];
      ip := ip + 1;
    }
    assert a.pulses[..ip] == a.pulses;
    var first := if |ts| > 0 then [SignalHit(pad, ts[0].time + offset)] else [];
    s := SideSignals(timeRaw, time, pedRaw, intRaw, ampRaw, pulseTimeRaw, first);
  }

  /** Everything ProcessHits builds from the hits walked so far. */
  datatype PlaneLists = PlaneLists(pos: SideSignals, neg: SideSignals, good: seq<HodoHit>)

  function ListsOf(hs: seq<RawHodoHit>, offset: int, lo: int, hi: int): PlaneLists
  {
    PlaneLists(SideLists(hs, Pos, offset), SideLists(hs, Neg, offset), GoodHits(hs, offset, lo, hi))
  }

  /** The body of the ProcessHits loop for one paddle: its signals on both sides and its good hit, if any. */
  method ProcessHit(acc: PlaneLists, ghost seen: seq<RawHodoHit>, hit: RawHodoHit, offset: int, lo: int, hi: int)
    returns (acc': PlaneLists, isGood: bool)
    requires acc == ListsOf(seen, offset, lo, hi)
    ensures acc' == ListsOf(seen + [hit], offset, lo, hi)
    ensures |acc'.good| == |acc.good| + (if isGood then 1 else 0)
  {
    var p := CollectSide(hit, Pos, offset);
    var n := CollectSide(hit, Neg, offset);
    var foundPos, tdcPos := FindTdcInWindow(hit.posTdc, offset, lo, hi);
    var foundNeg, tdcNeg := FindTdcInWindow(hit.negTdc, offset, lo, hi);
    var good := acc.good;
    isGood := foundPos || foundNeg;
    if isGood {
      good := good + [HodoHit(hit.counter, tdcPos, tdcNeg)];
    }
    SideListsSnoc(seen, hit, Pos, offset);
    SideListsSnoc(seen, hit, Neg, offset);
    GoodHitsSnoc(seen, hit, offset, lo, hi);
    acc' := PlaneLists(acc.pos.Append(p), acc.neg.Append(n), good);
  }

  // ---------------------------------------------------------------------
  // Pedestal accumulators

  /** One PMT's pedestal accumulator: sum, sum of squares, count and acceptance limit. */
  datatype PedStat = PedStat(sum: int, sum2: int, count: nat, limit: int)

  const InitialPedLimit: int := 1000
  const DefaultMinPeds: int := 500

  /**
   * The sums describe some sample of values: a non-negative count and a
   * non-negative sum of squares, with count*sum2 >= sum*sum (the variance
   * is never negative).
   */
  predicate Consistent(p: PedStat)
  {
    p.count >= 0 && p.sum2 >= 0 && p.count * p.sum2 >= p.sum * p.sum
  }

  /**
   * One ADC value offered to an accumulator: accepted when at most the
   * limit; when the count then reaches minPeds/5 the limit is tightened to
   * 100 above the (truncated) mean.
   */
  function AddPedestal(p: PedStat, adc: int, minPeds: int): (r: PedStat)
    ensures adc > p.limit ==> r == p
    ensures adc <= p.limit ==> r.sum == p.sum + adc && r.sum2 == p.sum2 + adc * adc && r.count == p.count + 1
    ensures r.limit != p.limit ==> adc <= p.limit && r.count == CDiv(minPeds, 5)
  {
    if adc <= p.limit then
      var n := PedStat(p.sum + adc, p.sum2 + adc * adc, p.count + 1, p.limit);
      if n.count == CDiv(minPeds, 5) then n.(limit := 100 + CDiv(n.sum, n.count)) else n
    else
      p
  }

  predicate CountersIn(hs: seq<RawHodoHit>, nelem: int)
  {
    forall i :: 0 <= i < |hs| ==> 1 <= hs[i].counter <= nelem
  }

  /**
   * One side's accumulators after offering each hit's value to the element
   * of its counter (a counter outside 1..|s| addresses no element).
   */
  function AccumulateHits(s: seq<PedStat>, hs: seq<RawHodoHit>, side: Side, minPeds: int): (r: seq<PedStat>)
    ensures |r| == |s|
  {
    if hs == [] then s
    else
      var prev := AccumulateHits(s, hs[..|hs| - 1], side, minPeds);
      var h := hs[|hs| - 1];
      var e := h.counter - 1;
      if 0 <= e < |prev| then prev[e := AddPedestal(prev[e], h.Adc(side).pulseIntRaw, minPeds)] else prev
  }

  lemma CountersInCons(h: RawHodoHit, rest: seq<RawHodoHit>, n: int)
    requires CountersIn([h] + rest, n)
    ensures 1 <= h.counter <= n && CountersIn(rest, n)
  {
    assert ([h] + rest)[0] == h;
    forall i | 0 <= i < |rest| ensures 1 <= rest[i].counter <= n { assert rest[i] == ([h] + rest)[i + 1]; }
  }

  /** Offering one more hit updates exactly the element of its counter. */
  lemma AccumulateHitsSnoc(s: seq<PedStat>, hs: seq<RawHodoHit>, h: RawHodoHit, side: Side, minPeds: int,
                           cur: seq<PedStat>, next: seq<PedStat>)
    requires 1 <= h.counter <= |s|
    requires cur == AccumulateHits(s, hs, side, minPeds)
    requires next == cur[h.counter - 1 := AddPedestal(cur[h.counter - 1], h.Adc(side).pulseIntRaw, minPeds)]
    ensures next == AccumulateHits(s, hs + [h], side, minPeds)
  {
    assert (hs + [h])[..|hs|] == hs;
  }

  lemma ExpandAccepted(n: int, sum: int, sum2: int, a: int)
    ensures (n + 1) * (sum2 + a * a) - (sum + a) * (sum + a)
      == (n * sum2 - sum * sum) + (sum2 - 2 * sum * a + n * a * a)
  {
  }

  lemma ScaledDeviation(n: int, sum: int, sum2: int, a: int)
    ensures n * (sum2 - 2 * sum * a + n * a * a) == (n * sum2 - sum * sum) + (sum - n * a) * (sum - n * a)
  {
  }

  lemma SquareNonNegative(x: int)
    ensures x * x >= 0
  {
  }

  lemma PositiveFactor(n: int, x: int)
    requires n > 0 && n * x >= 0
    ensures x >= 0
  {
  }

  /** Accepting a value keeps the sums describing a sample: the variance stays non-negative. */
  lemma AddPedestalConsistent(p: PedStat, adc: int, minPeds: int)
    requires Consistent(p)
    ensures Consistent(AddPedestal(p, adc, minPeds))
  {
    if adc <= p.limit {
      var n, sum, sum2, a := p.count, p.sum, p.sum2, adc;
      var x := sum2 - 2 * sum * a + n * a * a;
      ExpandAccepted(n, sum, sum2, a);
      SquareNonNegative(a);
      if n == 0 {
        SquareNonNegative(sum);
        assert sum == 0;
        assert x == sum2;
      } else {
        ScaledDeviation(n, sum, sum2, a);
        SquareNonNegative(sum - n * a);
        PositiveFactor(n, x);
      }
      var r := AddPedestal(p, adc, minPeds);
      assert r.count == n + 1 && r.sum == sum + a && r.sum2 == sum2 + a * a;
      assert r.count * r.sum2 - r.sum * r.sum == (n * sum2 - sum * sum) + x;
    }
  }

  predicate AllConsistent(s: seq<PedStat>)
  {
    forall e :: 0 <= e < |s| ==> Consistent(s[e])
  }

  /** Accumulating any hits keeps every element's sums consistent. */
  lemma {:induction false} AccumulateHitsConsistent(s: seq<PedStat>, hs: seq<RawHodoHit>, side: Side, minPeds: int)
    requires AllConsistent(s)
    ensures AllConsistent(AccumulateHits(s, hs, side, minPeds))
  {
    if hs != [] {
      AccumulateHitsConsistent(s, hs[..|hs| - 1], side, minPeds);
      var prev := AccumulateHits(s, hs[..|hs| - 1], side, minPeds);
      var h := hs[|hs| - 1];
      var e := h.counter - 1;
      if 0 <= e < |prev| {
        AddPedestalConsistent(prev[e], h.Adc(side).pulseIntRaw, minPeds);
      }
    }
  }

  /** Number of hits addressing element e (counter e+1). */
  function Addressing(hs: seq<RawHodoHit>, e: int): nat
  {
    if hs == [] then 0 else Addressing(hs[..|hs| - 1], e) + (if hs[|hs| - 1].counter == e + 1 then 1 else 0)
  }

  /**
   * Element e's count grows by at most the number of hits addressing it,
   * never shrinks, and an element no hit addresses is left exactly as it was.
   */
  lemma {:induction false} AccumulateHitsElement(s: seq<PedStat>, hs: seq<RawHodoHit>, side: Side, minPeds: int, e: nat)
    requires e < |s|
    ensures var r := AccumulateHits(s, hs, side, minPeds);
      && s[e].count <= r[e].count <= s[e].count + Addressing(hs, e)
      && (Addressing(hs, e) == 0 ==> r[e] == s[e])
  {
    if hs != [] {
      AccumulateHitsElement(s, hs[..|hs| - 1], side, minPeds, e);
    }
  }

  const InitialPedStat: PedStat := PedStat(0, 0, 0, InitialPedLimit)

  /** Accumulators that start initialised stay consistent whatever hits are offered. */
  lemma InitializedStaysConsistent(n: nat, hs: seq<RawHodoHit>, side: Side, minPeds: int)
    ensures AllConsistent(AccumulateHits(seq(n, _ => InitialPedStat), hs, side, minPeds))
  {
    AccumulateHitsConsistent(seq(n, _ => InitialPedStat), hs, side, minPeds);
  }

  /**
   * The tightened limit is 100 above the mean of the accepted values,
   * truncated toward zero: rounded down for a non-negative sum, up for a
   * negative one.
   */
  lemma TightenedLimit(p: PedStat, adc: int, minPeds: int)
    requires adc <= p.limit && p.count + 1 == CDiv(minPeds, 5)
    ensures var r := AddPedestal(p, adc, minPeds);
      && r.count == p.count + 1 && r.sum == p.sum + adc
      && (r.sum >= 0 ==> (r.limit - 100) * r.count <= r.sum < (r.limit - 99) * r.count)
      && (r.sum < 0 ==> (r.limit - 101) * r.count < r.sum <= (r.limit - 100) * r.count)
  {
    var r := AddPedestal(p, adc, minPeds);
    var q := CDiv(r.sum, r.count);
    assert r.limit - 100 == q;
    assert (q + 1) * r.count == q * r.count + r.count;
    assert (q - 1) * r.count == q * r.count - r.count;
  }

  /**
   * The four accumulator arrays of one PMT side (sum, sum of squares, count
   * and limit, one element per paddle).
   */
  class PedestalArrays {
    const sum: array<int>
    const sum2: array<int>
    const count: array<int>
    const limit: array<int>
    /** The accumulators, element by element. */
    ghost var stats: seq<PedStat>
    ghost const Repr: set<object>

    ghost predicate Valid()
      reads this, Repr
    {
      && Repr == {this, sum, sum2, count, limit}
      && sum.Length == sum2.Length == count.Length == limit.Length == |stats|
      && sum != sum2 && sum != count && sum != limit && sum2 != count && sum2 != limit && count != limit
      && (forall i :: 0 <= i < |stats| ==> count[i] >= 0 && stats[i] == PedStat(sum[i], sum2[i], count[i], limit[i]))
    }

    /** n fresh accumulators with sums and counts 0 and limit 1000. */
    constructor (n: nat)
      ensures Valid() && fresh(Repr)
      ensures stats == seq(n, _ => InitialPedStat)
    {
      var sum', sum2', count', limit' := new int[n], new int[n], new int[n], new int[n];
      var i := 0;
      while i < n
        invariant 0 <= i <= n
        invariant forall e :: 0 <= e < i ==> sum'[e] == 0 && sum2'[e] == 0 && count'[e] == 0 && limit'[e] == InitialPedLimit
      {
        sum'[i], sum2'[i], count'[i], limit'[i] := 0, 0, 0, InitialPedLimit;
        i := i + 1;
      }
      sum, sum2, count, limit := sum', sum2', count', limit';
      stats := seq(n, _ => InitialPedStat);
      Repr := {this, sum', sum2', count', limit'};
    }

    /** The body of the accumulation loop for one side: offer adc to one element. */
    method Add(element: nat, adc: int, minPeds: int)
      requires Valid() && element < |stats|
      modifies Repr
      ensures Valid()
      ensures stats == old(stats)[element := AddPedestal(old(stats)[element], adc, minPeds)]
    {
      if adc <= limit[element] {
        sum[element] := sum[element] + adc;
        sum2[element] := sum2[element] + adc * adc;
        count[element] := count[element] + 1;
        if count[element] == CDiv(minPeds, 5) {
          limit[element] := 100 + CDiv(sum[element], count[element]);
        }
      }
      stats := stats[element := AddPedestal(stats[element], adc, minPeds)];
    }
  }

  class ScintillatorPlane {
    const planeNum: int
    var nelem: nat
    var tdcOffset: int
    var scinTdcMin: int
    var scinTdcMax: int

    var posPeds: PedestalArrays
    var negPeds: PedestalArrays
    var nPedestalEvents: int
    var minPeds: int

    var pos: SideSignals
    var neg: SideSignals
    var hodoHits: seq<HodoHit>
    var nScinHits: int

    ghost predicate Valid()
      reads this, posPeds, negPeds, posPeds.Repr, negPeds.Repr
    {
      && posPeds.Valid() && negPeds.Valid()
      && posPeds.Repr !! negPeds.Repr
      && this !in posPeds.Repr && this !in negPeds.Repr
      && |posPeds.stats| == nelem && |negPeds.stats| == nelem
    }

    /** A plane with the geometry and TDC parameters its database supplies; the pedestals start initialised. */
    constructor (planeNum: int, nelem: nat, tdcOffset: int, scinTdcMin: int, scinTdcMax: int)
      ensures Valid()
      ensures this.planeNum == planeNum && this.nelem == nelem && this.tdcOffset == tdcOffset
      ensures this.scinTdcMin == scinTdcMin && this.scinTdcMax == scinTdcMax
      ensures nScinHits == 0 && hodoHits == [] && pos == NoSignals && neg == NoSignals
      ensures posPeds.stats == seq(nelem, _ => InitialPedStat)
      ensures negPeds.stats == seq(nelem, _ => InitialPedStat)
      ensures nPedestalEvents == 0 && minPeds == DefaultMinPeds
    {
      this.planeNum := planeNum;
      this.nelem, this.tdcOffset := nelem, tdcOffset;
      this.scinTdcMin, this.scinTdcMax := scinTdcMin, scinTdcMax;
      posPeds := new PedestalArrays(0);
      negPeds := new PedestalArrays(0);
      nPedestalEvents, minPeds := 0, 0;
      pos, neg, hodoHits, nScinHits := NoSignals, NoSignals, [], 0;
      new;
      InitializePedestals();
    }

    /** Per-event reset of the signal and good-hit lists; the good-hit count is left as it is. */
    method Clear()
      modifies this`pos, this`neg, this`hodoHits
      ensures pos == NoSignals && neg == NoSignals && hodoHits == []
    {
      pos, neg, hodoHits := NoSignals, NoSignals, [];
    }

    /** Fresh accumulators for every element: sums and counts 0, limit 1000; no pedestal events; 500 events needed. */
    method InitializePedestals()
      modifies this`posPeds, this`negPeds, this`nPedestalEvents, this`minPeds
      ensures Valid() && fresh(posPeds.Repr) && fresh(negPeds.Repr)
      ensures posPeds.stats == seq(nelem, _ => InitialPedStat)
      ensures negPeds.stats == seq(nelem, _ => InitialPedStat)
      ensures nPedestalEvents == 0 && minPeds == DefaultMinPeds
    {
      nPedestalEvents := 0;
      minPeds := DefaultMinPeds;
      posPeds := new PedestalArrays(nelem);
      negPeds := new PedestalArrays(nelem);
    }

    /** Offers one hit's two pulse integrals to the accumulators of its paddle. */
    method AccumulateHit(hit: RawHodoHit, ghost pos0: seq<PedStat>, ghost neg0: seq<PedStat>, ghost seen: seq<RawHodoHit>)
      requires Valid() && 1 <= hit.counter <= nelem
      requires |pos0| == |neg0| == nelem
      requires posPeds.stats == AccumulateHits(pos0, seen, Pos, minPeds)
      requires negPeds.stats == AccumulateHits(neg0, seen, Neg, minPeds)
      modifies posPeds.Repr, negPeds.Repr
      ensures Valid()
      ensures posPeds.stats == AccumulateHits(pos0, seen + [hit], Pos, minPeds)
      ensures negPeds.stats == AccumulateHits(neg0, seen + [hit], Neg, minPeds)
    {
      ghost var curPos, curNeg := posPeds.stats, negPeds.stats;
      var element := hit.counter - 1;
      posPeds.Add(element, hit.posAdc.pulseIntRaw, minPeds);
      negPeds.Add(element, hit.negAdc.pulseIntRaw, minPeds);
      AccumulateHitsSnoc(pos0, seen, hit, Pos, minPeds, curPos, posPeds.stats);
      AccumulateHitsSnoc(neg0, seen, hit, Neg, minPeds, curNeg, negPeds.stats);
    }

    /**
     * AccumulatePedestals: walk this plane's hits from nexthit, offering each
     * PMT's raw pulse integral to its element's accumulator; counts one more
     * pedestal event; returns where the walk stopped.
     */
    method AccumulatePedestals(rawhits: seq<RawHodoHit>, nexthit: nat) returns (ihit: nat)
      requires Valid()
      requires CountersIn(Walked(rawhits, nexthit, planeNum), nelem)
      modifies posPeds.Repr, negPeds.Repr, this`nPedestalEvents
      ensures Valid()
      ensures ihit == WalkEnd(rawhits, nexthit, planeNum)
      ensures posPeds.stats == AccumulateHits(old(posPeds.stats), Walked(rawhits, nexthit, planeNum), Pos, minPeds)
      ensures negPeds.stats == AccumulateHits(old(negPeds.stats), Walked(rawhits, nexthit, planeNum), Neg, minPeds)
      ensures nPedestalEvents == old(nPedestalEvents) + 1
    {
      ghost var pos0, neg0 := posPeds.stats, negPeds.stats;
      ghost var walked := Walked(rawhits, nexthit, planeNum);
      ghost var seen: seq<RawHodoHit> := [];
      ihit := nexthit;
      while ihit < |rawhits|
        invariant nexthit <= ihit
        invariant WalkEnd(rawhits, ihit, planeNum) == WalkEnd(rawhits, nexthit, planeNum)
        invariant walked == seen + Walked(rawhits, ihit, planeNum)
        invariant Valid()
        invariant nPedestalEvents == old(nPedestalEvents)
        invariant CountersIn(Walked(rawhits, ihit, planeNum), nelem)
        invariant posPeds.stats == AccumulateHits(pos0, seen, Pos, minPeds)
        invariant negPeds.stats == AccumulateHits(neg0, seen, Neg, minPeds)
      {
        var hit := rawhits[ihit];
        if hit.plane > planeNum {
          WalkStop(rawhits, ihit, planeNum, seen);
          break;
        }
        WalkStep(rawhits, ihit, planeNum, seen);
        CountersInCons(hit, Walked(rawhits, ihit + 1, planeNum), nelem);
        AccumulateHit(hit, pos0, neg0, seen);
        seen := seen + [hit];
        ihit := ihit + 1;
      }
      if ihit >= |rawhits| {
        WalkStop(rawhits, ihit, planeNum, seen);
      }
      assert seen == walked;
      nPedestalEvents := nPedestalEvents + 1;
    }

    /**
     * The integer part of ProcessHits: walk this plane's hits from nexthit,
     * rebuild the signal lists from them, and keep one good hit per paddle
     * with a TDC time inside the window on either PMT.
     */
    method ProcessHits(rawhits: seq<RawHodoHit>, nexthit: nat) returns (ihit: nat)
      modifies this`pos, this`neg, this`hodoHits, this`nScinHits
      ensures ihit == WalkEnd(rawhits, nexthit, planeNum)
      ensures PlaneLists(pos, neg, hodoHits) == ListsOf(Walked(rawhits, nexthit, planeNum), tdcOffset, scinTdcMin, scinTdcMax)
      ensures nScinHits == |hodoHits|
    {
      ghost var walked := Walked(rawhits, nexthit, planeNum);
      ghost var seen: seq<RawHodoHit> := [];
      var offset, lo, hi := tdcOffset, scinTdcMin, scinTdcMax;
      var acc, nGood := PlaneLists(NoSignals, NoSignals, []), 0;
      ihit := nexthit;
      while ihit < |rawhits|
        invariant nexthit <= ihit
        invariant WalkEnd(rawhits, ihit, planeNum) == WalkEnd(rawhits, nexthit, planeNum)
        invariant walked == seen + Walked(rawhits, ihit, planeNum)
        invariant acc == ListsOf(seen, offset, lo, hi)
        invariant nGood == |acc.good|
      {
        var hit := rawhits[ihit];
        if hit.plane > planeNum {
          WalkStop(rawhits, ihit, planeNum, seen);
          break;
        }
        WalkStep(rawhits, ihit, planeNum, seen);
        var isGood;
        acc, isGood := ProcessHit(acc, seen, hit, offset, lo, hi);
        if isGood {
          nGood := nGood + 1;
        }
        seen := seen + [hit];
        ihit := ihit + 1;
      }
      if ihit >= |rawhits| {
        WalkStop(rawhits, ihit, planeNum, seen);
      }
      assert seen == walked;
      assert acc == ListsOf(walked, tdcOffset, scinTdcMin, scinTdcMax);
      pos, neg, hodoHits, nScinHits := acc.pos, acc.neg, acc.good, nGood;
      assert PlaneLists(pos, neg, hodoHits) == acc;
    }

  }
}
