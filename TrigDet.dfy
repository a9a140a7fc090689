/**
 * A mock detector that gathers trigger-related ADC and TDC channels of one
 * spectrometer.  Per event it is cleared, then the structured hits of the
 * event are decoded into fixed-capacity channel arrays; at setup it publishes
 * one named variable per channel and derived quantity.
 */
module TrigDetector {

  import opened Common
  import opened AsciiCase

  /** Fixed capacity of the ADC arrays. */
  const MaxAdcChannels: nat := 100
  /** Fixed capacity of the TDC arrays. */
  const MaxTdcChannels: nat := 100

  /** THaAnalysisObject::EStatus. */
  datatype EStatus = OK | NotInit | InitError | FileError

  /** THaAnalysisObject::EMode. */
  datatype EMode = Define | Delete

  /**
   * One structured hit as the hit-list decoder yields it: map plane, 1-based
   * counter, and the values the hit reports for ADC signal 0 (value,
   * pedestal, multiplicity) and TDC signal 1 (value, multiplicity).
   */
  datatype TrigRawHit = TrigRawHit(
    plane: int, counter: int,
    adcValue: int, adcPedestal: int, adcMultiplicity: int,
    tdcValue: int, tdcMultiplicity: int)

  datatype DecodeError =
    | UnknownPlane(plane: int)                   // std::out_of_range in the source
    | CounterOutOfRange(plane: int, counter: int) // unchecked array write in the source

  /** The five channel arrays, as values. */
  datatype ChannelState = ChannelState(
    adcVal: seq<int>, adcPedestal: seq<int>, adcMultiplicity: seq<int>,
    tdcVal: seq<int>, tdcMultiplicity: seq<int>)
  {
    predicate WellFormed()
    {
      && |adcVal| == MaxAdcChannels && |adcPedestal| == MaxAdcChannels
      && |adcMultiplicity| == MaxAdcChannels
      && |tdcVal| == MaxTdcChannels && |tdcMultiplicity| == MaxTdcChannels
    }
  }

  /** Where decoding a list of hits ends: all applied, or stopped at an error. */
  datatype DecodeOutcome =
    | Decoded(state: ChannelState)
    | Aborted(state: ChannelState, error: DecodeError)

  /** A hit is accepted when its plane is 1 or 2 and its counter addresses a slot of that plane's arrays. */
  predicate Accepted(h: TrigRawHit)
  {
    || (h.plane == 1 && 1 <= h.counter <= MaxAdcChannels)
    || (h.plane == 2 && 1 <= h.counter <= MaxTdcChannels)
  }

  /** The effect of one hit on the channel state. */
  function ApplyHit(c: ChannelState, h: TrigRawHit): (r: DecodeOutcome)
    requires c.WellFormed()
    ensures r.state.WellFormed()
    ensures r.Decoded? <==> Accepted(h)
    ensures r.Aborted? ==> r.state == c
  {
    if h.plane == 1 then
      if 1 <= h.counter <= MaxAdcChannels then
        var i := h.counter - 1;
        Decoded(c.(adcVal := c.adcVal[i := h.adcValue],
                   adcPedestal := c.adcPedestal[i := h.adcPedestal],
                   adcMultiplicity := c.adcMultiplicity[i := h.adcMultiplicity]))
      else
        Aborted(c, CounterOutOfRange(1, h.counter))
    else if h.plane == 2 then
      if 1 <= h.counter <= MaxTdcChannels then
        var i := h.counter - 1;
        Decoded(c.(tdcVal := c.tdcVal[i := h.tdcValue],
                   tdcMultiplicity := c.tdcMultiplicity[i := h.tdcMultiplicity]))
      else
        Aborted(c, CounterOutOfRange(2, h.counter))
    else
      Aborted(c, UnknownPlane(h.plane))
  }

  /** The hits applied in order; the first rejected hit stops the walk. */
  function DecodeHits(c: ChannelState, hs: seq<TrigRawHit>): (r: DecodeOutcome)
    requires c.WellFormed()
    ensures r.state.WellFormed()
    decreases |hs|
  {
    if hs == [] then Decoded(c)
    else
      var prev := DecodeHits(c, hs[..|hs| - 1]);
      if prev.Aborted? then prev else ApplyHit(prev.state, hs[|hs| - 1])
  }

  /** Every slot holds the "never written" sentinel -1. */
  function Sentinel(n: nat): (s: seq<int>)
  {
    seq(n, _ => -1)
  }

  /** Slots below n reset to 0, the rest kept. */
  function ZeroPrefix(s: seq<int>, n: int): (r: seq<int>)
  {
    seq(|s|, i requires 0 <= i < |s| => if i < n then 0 else s[i])
  }

  // ---------------------------------------------------------------------
  // Published variables

  /** The arrays a published variable can be bound to. */
  datatype ChannelArray = AdcVal | AdcPedestal | AdcMultiplicity | TdcVal | TdcMultiplicity

  /** The storage a variable is bound to, written `fAdcVal[i]` and so on in the source. */
  datatype Slot = Slot(target: ChannelArray, index: int)

  /** One RVarDef: a name (also used as its description) bound to a slot, or the list terminator. */
  datatype VarDef = Entry(name: string, slot: Slot) | End

  datatype ListError =
    | LengthError      // a std::vector of negative size was requested
    | NameOutOfRange   // std::vector::at past the end of a name list

  /** The three ADC entries of channel i. */
  function AdcTriple(name: string, i: int): seq<VarDef>
  {
    [Entry(name + "_adc", Slot(AdcVal, i)),
     Entry(name + "_adcPed", Slot(AdcPedestal, i)),
     Entry(name + "_adcMult", Slot(AdcMultiplicity, i))]
  }

  /** The two TDC entries of channel i. */
  function TdcPair(name: string, i: int): seq<VarDef>
  {
    [Entry(name + "_tdc", Slot(TdcVal, i)),
     Entry(name + "_tdcMult", Slot(TdcMultiplicity, i))]
  }

  /** Entries of the first n ADC channels. */
  function AdcEntries(names: seq<string>, n: nat): (r: seq<VarDef>)
    requires n <= |names|
    ensures |r| == 3 * n
  {
    if n == 0 then [] else AdcEntries(names, n - 1) + AdcTriple(names[n - 1], n - 1)
  }

  /** Entries of the first n TDC channels. */
  function TdcEntries(names: seq<string>, n: nat): (r: seq<VarDef>)
    requires n <= |names|
    ensures |r| == 2 * n
  {
    if n == 0 then [] else TdcEntries(names, n - 1) + TdcPair(names[n - 1], n - 1)
  }

  /** The variable list DefineVariables hands to the publisher, or the exception building it raises. */
  function VarList(adcNames: seq<string>, tdcNames: seq<string>, numAdc: int, numTdc: int)
    : (r: Result<seq<VarDef>, ListError>)
    ensures r.Ok? <==> 0 <= numAdc <= |adcNames| && 0 <= numTdc <= |tdcNames|
    ensures numAdc < 0 ==> r == Err(LengthError)
    ensures 0 <= numAdc && |adcNames| < numAdc ==> r == Err(NameOutOfRange)
    ensures r.Ok? ==> |r.value| == 3 * numAdc + 2 * numTdc + 1
  {
    if numAdc < 0 then Err(LengthError)
    else if numAdc > |adcNames| then Err(NameOutOfRange)
    else if numTdc < 0 then Err(LengthError)
    else if numTdc > |tdcNames| then Err(NameOutOfRange)
    else Ok(AdcEntries(adcNames, numAdc) + TdcEntries(tdcNames, numTdc) + [End])
  }

  /** The value a published slot reads in a channel state. */
  function Read(c: ChannelState, s: Slot): (v: int)
    requires c.WellFormed()
    requires s.target.AdcVal? || s.target.AdcPedestal? || s.target.AdcMultiplicity? ==> 0 <= s.index < MaxAdcChannels
    requires s.target.TdcVal? || s.target.TdcMultiplicity? ==> 0 <= s.index < MaxTdcChannels
  {
    match s.target
    case AdcVal => c.adcVal[s.index]
    case AdcPedestal => c.adcPedestal[s.index]
    case AdcMultiplicity => c.adcMultiplicity[s.index]
    case TdcVal => c.tdcVal[s.index]
    case TdcMultiplicity => c.tdcMultiplicity[s.index]
  }

  /** The loops of DefineVariables: push three entries per ADC name, two per TDC name, then the terminator. */
  method BuildVarList(adcNames: seq<string>, tdcNames: seq<string>, numAdc: int, numTdc: int)
    returns (r: Result<seq<VarDef>, ListError>)
    ensures r == VarList(adcNames, tdcNames, numAdc, numTdc)
  {
    if numAdc < 0 {
      return Err(LengthError);
    }
    var vars: seq<VarDef> := [];
    var i := 0;
    while i < numAdc
      invariant 0 <= i <= numAdc && i <= |adcNames|
      invariant vars == AdcEntries(adcNames, i)
    {
      if i >= |adcNames| {
        return Err(NameOutOfRange);
      }
      vars := vars + [Entry(adcNames[i] + "_adc", Slot(AdcVal, i))];
      vars := vars + [Entry(adcNames[i] + "_adcPed", Slot(AdcPedestal, i))];
      vars := vars + [Entry(adcNames[i] + "_adcMult", Slot(AdcMultiplicity, i))];
      i := i + 1;
    }
    if numTdc < 0 {
      return Err(LengthError);
    }
    var adcPart := vars;
    var j := 0;
    while j < numTdc
      invariant 0 <= j <= numTdc && j <= |tdcNames|
      invariant vars == adcPart + TdcEntries(tdcNames, j)
    {
      if j >= |tdcNames| {
        return Err(NameOutOfRange);
      }
      vars := vars + [Entry(tdcNames[j] + "_tdc", Slot(TdcVal, j))];
      vars := vars + [Entry(tdcNames[j] + "_tdcMult", Slot(TdcMultiplicity, j))];
      j := j + 1;
    }
    vars := vars + [End];
    return Ok(vars);
  }

  /** What DefineVariables did: nothing (already set up), a list handed on, or an exception. */
  datatype DefineOutcome = AlreadySetUp | Published(vars: seq<VarDef>) | Raised(error: ListError)

  class TrigDet {
    /** Lower-cased parameter prefix `<apparatus>_<detector>`. */
    var kwPrefix: string
    var numAdc: int
    var numTdc: int
    var adcNames: seq<string>
    var tdcNames: seq<string>
    const adcVal: array<int>
    const adcPedestal: array<int>
    const adcMultiplicity: array<int>
    const tdcVal: array<int>
    const tdcMultiplicity: array<int>
    var isSetup: bool
    var status: EStatus

    ghost predicate Valid()
      reads this
    {
      && adcVal.Length == MaxAdcChannels && adcPedestal.Length == MaxAdcChannels
      && adcMultiplicity.Length == MaxAdcChannels
      && tdcVal.Length == MaxTdcChannels && tdcMultiplicity.Length == MaxTdcChannels
      && adcVal != adcPedestal && adcVal != adcMultiplicity && adcPedestal != adcMultiplicity
      && tdcVal != tdcMultiplicity
      && adcVal != tdcVal && adcVal != tdcMultiplicity
      && adcPedestal != tdcVal && adcPedestal != tdcMultiplicity
      && adcMultiplicity != tdcVal && adcMultiplicity != tdcMultiplicity
      && numAdc <= MaxAdcChannels && numTdc <= MaxTdcChannels
    }

    /** The channel arrays as a value. */
    ghost function State(): (c: ChannelState)
      reads this, adcVal, adcPedestal, adcMultiplicity, tdcVal, tdcMultiplicity
      requires Valid()
      ensures c.WellFormed()
    {
      ChannelState(adcVal[..], adcPedestal[..], adcMultiplicity[..], tdcVal[..], tdcMultiplicity[..])
    }

    /**
     * A detector whose channel counts and names are those the parameter file
     * supplies; the arrays start value-initialised to 0.
     */
    constructor (numAdc: int, numTdc: int, adcNames: seq<string>, tdcNames: seq<string>)
      requires numAdc <= MaxAdcChannels && numTdc <= MaxTdcChannels
      ensures Valid() && !isSetup && kwPrefix == ""
      ensures this.numAdc == numAdc && this.numTdc == numTdc
      ensures this.adcNames == adcNames && this.tdcNames == tdcNames
      ensures fresh(adcVal) && fresh(adcPedestal) && fresh(adcMultiplicity)
      ensures fresh(tdcVal) && fresh(tdcMultiplicity)
      ensures State() == ChannelState(seq(MaxAdcChannels, _ => 0), seq(MaxAdcChannels, _ => 0),
                                      seq(MaxAdcChannels, _ => 0), seq(MaxTdcChannels, _ => 0),
                                      seq(MaxTdcChannels, _ => 0))
    {
      kwPrefix := "";
      this.numAdc, this.numTdc := numAdc, numTdc;
      this.adcNames, this.tdcNames := adcNames, tdcNames;
      adcVal := new int[MaxAdcChannels](_ => 0);
      adcPedestal := new int[MaxAdcChannels](_ => 0);
      adcMultiplicity := new int[MaxAdcChannels](_ => 0);
      tdcVal := new int[MaxTdcChannels](_ => 0);
      tdcMultiplicity := new int[MaxTdcChannels](_ => 0);
      isSetup := false;
      status := NotInit;
    }

    /** The parameter prefix: apparatus name, "_", detector name, lower-cased. */
    method Setup(appName: string, name: string)
      modifies this`kwPrefix
      ensures kwPrefix == Lower(appName + "_" + name)
    {
      kwPrefix := Lower(appName + "_" + name);
    }

    /**
     * Init: Setup, the -1 sentinel over the whole value arrays, then (after
     * the base-class initialisation, whose result is baseStatus) the engine
     * detector ID used to fill the detector map, whose result is fillMapResult.
     */
    method Init(appName: string, name: string, baseStatus: EStatus, fillMapResult: int)
      returns (r: EStatus, engineDID: Option<string>)
      requires Valid()
      modifies this`kwPrefix, this`status, adcVal, tdcVal
      ensures Valid()
      ensures kwPrefix == Lower(appName + "_" + name)
      ensures adcVal[..] == Sentinel(MaxAdcChannels) && tdcVal[..] == Sentinel(MaxTdcChannels)
      ensures State() == old(State()).(adcVal := Sentinel(MaxAdcChannels), tdcVal := Sentinel(MaxTdcChannels))
      ensures baseStatus != OK ==> r == baseStatus && status == baseStatus && engineDID == None
      ensures baseStatus == OK ==> engineDID == Some(EngineDID(appName, name))
      ensures baseStatus == OK && fillMapResult < 0 ==> r == InitError && status == old(status)
      ensures baseStatus == OK && fillMapResult >= 0 ==> r == OK && status == OK
    {
      Setup(appName, name);
      var i := 0;
      while i < MaxAdcChannels
        invariant 0 <= i <= MaxAdcChannels
        invariant forall k :: 0 <= k < i ==> adcVal[k] == -1
        modifies adcVal
      {
        adcVal[i] := -1;
        i := i + 1;
      }
      i := 0;
      while i < MaxTdcChannels
        invariant 0 <= i <= MaxTdcChannels
        invariant forall k :: 0 <= k < i ==> tdcVal[k] == -1
        modifies tdcVal
      {
        tdcVal[i] := -1;
        i := i + 1;
      }
      assert adcVal[..] == Sentinel(MaxAdcChannels) && tdcVal[..] == Sentinel(MaxTdcChannels);
      if baseStatus != OK {
        status := baseStatus;
        return status, None;
      }
      var did := EngineDID(appName, name);
      if fillMapResult < 0 {
        return InitError, Some(did);
      }
      status := OK;
      return OK, Some(did);
    }

    /** Per-event reset: only the configured value slots become 0. */
    method Clear()
      requires Valid()
      modifies adcVal, tdcVal
      ensures Valid()
      ensures State() == old(State()).(adcVal := ZeroPrefix(old(adcVal[..]), numAdc),
                                       tdcVal := ZeroPrefix(old(tdcVal[..]), numTdc))
    {
      ghost var adc0, tdc0 := adcVal[..], tdcVal[..];
      var i := 0;
      while i < numAdc
        invariant 0 <= i <= (if numAdc > 0 then numAdc else 0)
        invariant forall k :: 0 <= k < MaxAdcChannels ==> adcVal[k] == (if k < i then 0 else adc0[k])
        modifies adcVal
      {
        adcVal[i] := 0;
        i := i + 1;
      }
      assert forall k :: 0 <= k < MaxAdcChannels ==> adcVal[..][k] == ZeroPrefix(adc0, numAdc)[k];
      i := 0;
      while i < numTdc
        invariant 0 <= i <= (if numTdc > 0 then numTdc else 0)
        invariant forall k :: 0 <= k < MaxTdcChannels ==> tdcVal[k] == (if k < i then 0 else tdc0[k])
        modifies tdcVal
      {
        tdcVal[i] := 0;
        i := i + 1;
      }
      assert forall k :: 0 <= k < MaxTdcChannels ==> tdcVal[..][k] == ZeroPrefix(tdc0, numTdc)[k];
    }

    /** Applies the event's hits in order; returns 0, or the error that stopped the walk. */
    method Decode(hits: seq<TrigRawHit>) returns (r: Result<int, DecodeError>)
      requires Valid()
      modifies adcVal, adcPedestal, adcMultiplicity, tdcVal, tdcMultiplicity
      ensures Valid()
      ensures State() == DecodeHits(old(State()), hits).state
      ensures DecodeHits(old(State()), hits).Decoded? ==> r == Ok(0)
      ensures DecodeHits(old(State()), hits).Aborted? ==> r == Err(DecodeHits(old(State()), hits).error)
    {
      ghost var s0 := State();
      var iHit := 0;
      while iHit < |hits|
        invariant 0 <= iHit <= |hits|
        invariant DecodeHits(s0, hits[..iHit]) == Decoded(State())
      {
        var hit := hits[iHit];
        assert hits[..iHit + 1][..iHit] == hits[..iHit];
        if hit.plane == 1 && 1 <= hit.counter <= MaxAdcChannels {
          adcVal[hit.counter - 1] := hit.adcValue;
          adcPedestal[hit.counter - 1] := hit.adcPedestal;
          adcMultiplicity[hit.counter - 1] := hit.adcMultiplicity;
        } else if hit.plane == 2 && 1 <= hit.counter <= MaxTdcChannels {
          tdcVal[hit.counter - 1] := hit.tdcValue;
          tdcMultiplicity[hit.counter - 1] := hit.tdcMultiplicity;
        } else {
          AbortedPrefixIsFinal(s0, hits, iHit + 1);
          if hit.plane == 1 || hit.plane == 2 {
            return Err(CounterOutOfRange(hit.plane, hit.counter));
          }
          return Err(UnknownPlane(hit.plane));
        }
        iHit := iHit + 1;
      }
      assert hits[..iHit] == hits;
      return Ok(0);
    }

    /**
     * DefineVariables: skip when already defined, otherwise record the mode
     * and build the variable list that goes to the publisher.
     */
    method DefineVariables(mode: EMode) returns (r: DefineOutcome)
      modifies this`isSetup
      ensures mode == Define && old(isSetup) ==> r == AlreadySetUp && isSetup
      ensures !(mode == Define && old(isSetup)) ==>
        && isSetup == (mode == Define)
        && (match VarList(adcNames, tdcNames, numAdc, numTdc)
            case Ok(vars) => r == Published(vars)
            case Err(e) => r == Raised(e))
    {
      if mode == Define && isSetup {
        return AlreadySetUp;
      }
      isSetup := mode == Define;
      var built := BuildVarList(adcNames, tdcNames, numAdc, numTdc);
      match built
      case Ok(vars) => r := Published(vars);
      case Err(e) => r := Raised(e);
    }
  }

  /** The engine detector ID: first letter of the apparatus name and the detector name, upper-cased. */
  function EngineDID(appName: string, name: string): (id: string)
    ensures |id| == |name| + (if |appName| >= 1 then 1 else 0)
    ensures forall i :: 0 <= i < |id| ==> !IsLower(id[i])
  {
    Upper(appName[..if |appName| >= 1 then 1 else 0] + name)
  }

  // ---------------------------------------------------------------------
  // Properties of the decode walk

  /** Once the walk has stopped, later hits change nothing. */
  lemma {:induction false} AbortedPrefixIsFinal(c: ChannelState, hs: seq<TrigRawHit>, k: nat)
    requires c.WellFormed() && k <= |hs|
    requires DecodeHits(c, hs[..k]).Aborted?
    ensures DecodeHits(c, hs) == DecodeHits(c, hs[..k])
    decreases |hs|
  {
    if k < |hs| {
      var init := hs[..|hs| - 1];
      assert init[..k] == hs[..k];
      AbortedPrefixIsFinal(c, init, k);
    } else {
      assert hs[..k] == hs;
    }
  }

  /** A completed walk has a completed walk on every prefix. */
  lemma {:induction false} DecodedPrefix(c: ChannelState, hs: seq<TrigRawHit>, k: nat)
    requires c.WellFormed() && k <= |hs|
    requires DecodeHits(c, hs).Decoded?
    ensures DecodeHits(c, hs[..k]).Decoded?
  {
    if DecodeHits(c, hs[..k]).Aborted? {
      AbortedPrefixIsFinal(c, hs, k);
    }
  }

  /** The walk completes exactly when every hit is accepted. */
  lemma {:induction false} DecodedIffAllAccepted(c: ChannelState, hs: seq<TrigRawHit>)
    requires c.WellFormed()
    ensures DecodeHits(c, hs).Decoded? <==> forall i :: 0 <= i < |hs| ==> Accepted(hs[i])
    decreases |hs|
  {
    if hs != [] {
      var init := hs[..|hs| - 1];
      DecodedIffAllAccepted(c, init);
      assert forall i :: 0 <= i < |init| ==> init[i] == hs[i];
    }
  }

  /**
   * A rejected hit stops the walk: the result is the state left by the hits
   * before it, with the rejected hit's error.
   */
  lemma AbortKeepsPrefixEffects(c: ChannelState, hs: seq<TrigRawHit>, k: nat)
    requires c.WellFormed() && k < |hs|
    requires forall i :: 0 <= i < k ==> Accepted(hs[i])
    requires !Accepted(hs[k])
    ensures DecodeHits(c, hs[..k]).Decoded?
    ensures DecodeHits(c, hs).Aborted?
    ensures DecodeHits(c, hs).state == DecodeHits(c, hs[..k]).state
    ensures DecodeHits(c, hs).error == ApplyHit(DecodeHits(c, hs[..k]).state, hs[k]).error
  {
    var pre := hs[..k];
    assert forall i :: 0 <= i < |pre| ==> pre[i] == hs[i];
    DecodedIffAllAccepted(c, pre);
    assert hs[..k + 1][..k] == pre;
    AbortedPrefixIsFinal(c, hs, k + 1);
  }

  /** A plane-1 hit writes exactly the three ADC slots of its counter and nothing else. */
  lemma AdcHitWritesItsSlot(c: ChannelState, h: TrigRawHit)
    requires c.WellFormed() && h.plane == 1 && 1 <= h.counter <= MaxAdcChannels
    ensures var d := ApplyHit(c, h).state;
      && d.adcVal[h.counter - 1] == h.adcValue
      && d.adcPedestal[h.counter - 1] == h.adcPedestal
      && d.adcMultiplicity[h.counter - 1] == h.adcMultiplicity
      && (forall i :: 0 <= i < MaxAdcChannels && i != h.counter - 1 ==>
            d.adcVal[i] == c.adcVal[i] && d.adcPedestal[i] == c.adcPedestal[i]
            && d.adcMultiplicity[i] == c.adcMultiplicity[i])
      && d.tdcVal == c.tdcVal && d.tdcMultiplicity == c.tdcMultiplicity
  {
  }

  /** A plane-2 hit writes exactly the two TDC slots of its counter and nothing else. */
  lemma TdcHitWritesItsSlot(c: ChannelState, h: TrigRawHit)
    requires c.WellFormed() && h.plane == 2 && 1 <= h.counter <= MaxTdcChannels
    ensures var d := ApplyHit(c, h).state;
      && d.tdcVal[h.counter - 1] == h.tdcValue
      && d.tdcMultiplicity[h.counter - 1] == h.tdcMultiplicity
      && (forall i :: 0 <= i < MaxTdcChannels && i != h.counter - 1 ==>
            d.tdcVal[i] == c.tdcVal[i] && d.tdcMultiplicity[i] == c.tdcMultiplicity[i])
      && d.adcVal == c.adcVal && d.adcPedestal == c.adcPedestal
      && d.adcMultiplicity == c.adcMultiplicity
  {
  }

  /** Last hit wins: an ADC channel ends with the values of the last plane-1 hit on its counter. */
  lemma {:induction false} LastAdcHitWins(c: ChannelState, hs: seq<TrigRawHit>, k: nat)
    requires c.WellFormed() && k < |hs|
    requires DecodeHits(c, hs).Decoded?
    requires hs[k].plane == 1
    requires forall j :: k < j < |hs| ==> !(hs[j].plane == 1 && hs[j].counter == hs[k].counter)
    ensures 1 <= hs[k].counter <= MaxAdcChannels
    ensures var d := DecodeHits(c, hs).state;
      && d.adcVal[hs[k].counter - 1] == hs[k].adcValue
      && d.adcPedestal[hs[k].counter - 1] == hs[k].adcPedestal
      && d.adcMultiplicity[hs[k].counter - 1] == hs[k].adcMultiplicity
    decreases |hs|
  {
    DecodedIffAllAccepted(c, hs);
    var init := hs[..|hs| - 1];
    DecodedPrefix(c, hs, |hs| - 1);
    if k < |hs| - 1 {
      assert init[k] == hs[k];
      forall j | k < j < |init| ensures !(init[j].plane == 1 && init[j].counter == init[k].counter) {
        assert init[j] == hs[j];
      }
      LastAdcHitWins(c, init, k);
    }
  }

  /** Last hit wins: a TDC channel ends with the values of the last plane-2 hit on its counter. */
  lemma {:induction false} LastTdcHitWins(c: ChannelState, hs: seq<TrigRawHit>, k: nat)
    requires c.WellFormed() && k < |hs|
    requires DecodeHits(c, hs).Decoded?
    requires hs[k].plane == 2
    requires forall j :: k < j < |hs| ==> !(hs[j].plane == 2 && hs[j].counter == hs[k].counter)
    ensures 1 <= hs[k].counter <= MaxTdcChannels
    ensures var d := DecodeHits(c, hs).state;
      && d.tdcVal[hs[k].counter - 1] == hs[k].tdcValue
      && d.tdcMultiplicity[hs[k].counter - 1] == hs[k].tdcMultiplicity
    decreases |hs|
  {
    DecodedIffAllAccepted(c, hs);
    var init := hs[..|hs| - 1];
    DecodedPrefix(c, hs, |hs| - 1);
    if k < |hs| - 1 {
      assert init[k] == hs[k];
      forall j | k < j < |init| ensures !(init[j].plane == 2 && init[j].counter == init[k].counter) {
        assert init[j] == hs[j];
      }
      LastTdcHitWins(c, init, k);
    }
  }

  /** An ADC channel no hit addresses keeps its pre-event record, whether or not the walk completes. */
  lemma {:induction false} UnaddressedAdcSlotKept(c: ChannelState, hs: seq<TrigRawHit>, n: nat)
    requires c.WellFormed() && n < MaxAdcChannels
    requires forall j :: 0 <= j < |hs| ==> !(hs[j].plane == 1 && hs[j].counter == n + 1)
    ensures var d := DecodeHits(c, hs).state;
      d.adcVal[n] == c.adcVal[n] && d.adcPedestal[n] == c.adcPedestal[n]
      && d.adcMultiplicity[n] == c.adcMultiplicity[n]
    decreases |hs|
  {
    if hs != [] {
      var init := hs[..|hs| - 1];
      forall j | 0 <= j < |init| ensures !(init[j].plane == 1 && init[j].counter == n + 1) {
        assert init[j] == hs[j];
      }
      UnaddressedAdcSlotKept(c, init, n);
    }
  }

  /** A TDC channel no hit addresses keeps its pre-event record, whether or not the walk completes. */
  lemma {:induction false} UnaddressedTdcSlotKept(c: ChannelState, hs: seq<TrigRawHit>, n: nat)
    requires c.WellFormed() && n < MaxTdcChannels
    requires forall j :: 0 <= j < |hs| ==> !(hs[j].plane == 2 && hs[j].counter == n + 1)
    ensures var d := DecodeHits(c, hs).state;
      d.tdcVal[n] == c.tdcVal[n] && d.tdcMultiplicity[n] == c.tdcMultiplicity[n]
    decreases |hs|
  {
    if hs != [] {
      var init := hs[..|hs| - 1];
      forall j | 0 <= j < |init| ensures !(init[j].plane == 2 && init[j].counter == n + 1) {
        assert init[j] == hs[j];
      }
      UnaddressedTdcSlotKept(c, init, n);
    }
  }

  /** The pedestal and multiplicity arrays and the unconfigured value slots survive the per-event reset. */
  lemma ResetAfterSentinel(numAdc: int, numTdc: int, i: nat)
    ensures i < MaxAdcChannels ==>
      ZeroPrefix(Sentinel(MaxAdcChannels), numAdc)[i] == (if i < numAdc then 0 else -1)
    ensures i < MaxTdcChannels ==>
      ZeroPrefix(Sentinel(MaxTdcChannels), numTdc)[i] == (if i < numTdc then 0 else -1)
  {
  }

  // ---------------------------------------------------------------------
  // Properties of the variable list

  lemma {:induction false} AdcEntriesShape(names: seq<string>, n: nat)
    requires n <= |names|
    ensures |AdcEntries(names, n)| == 3 * n
    ensures forall k :: 0 <= k < 3 * n ==> AdcEntries(names, n)[k].Entry?
    ensures forall i :: 0 <= i < n ==>
      && AdcEntries(names, n)[3 * i] == Entry(names[i] + "_adc", Slot(AdcVal, i))
      && AdcEntries(names, n)[3 * i + 1] == Entry(names[i] + "_adcPed", Slot(AdcPedestal, i))
      && AdcEntries(names, n)[3 * i + 2] == Entry(names[i] + "_adcMult", Slot(AdcMultiplicity, i))
  {
    if n > 0 {
      AdcEntriesShape(names, n - 1);
      var prev := AdcEntries(names, n - 1);
      assert AdcEntries(names, n) == prev + AdcTriple(names[n - 1], n - 1);
      assert forall k :: 0 <= k < |prev| ==> AdcEntries(names, n)[k] == prev[k];
    }
  }

  lemma {:induction false} TdcEntriesShape(names: seq<string>, n: nat)
    requires n <= |names|
    ensures |TdcEntries(names, n)| == 2 * n
    ensures forall k :: 0 <= k < 2 * n ==> TdcEntries(names, n)[k].Entry?
    ensures forall j :: 0 <= j < n ==>
      && TdcEntries(names, n)[2 * j] == Entry(names[j] + "_tdc", Slot(TdcVal, j))
      && TdcEntries(names, n)[2 * j + 1] == Entry(names[j] + "_tdcMult", Slot(TdcMultiplicity, j))
  {
    if n > 0 {
      TdcEntriesShape(names, n - 1);
      var prev := TdcEntries(names, n - 1);
      assert TdcEntries(names, n) == prev + TdcPair(names[n - 1], n - 1);
      assert forall k :: 0 <= k < |prev| ==> TdcEntries(names, n)[k] == prev[k];
    }
  }

  /**
   * The published list: 3 entries per ADC channel (_adc, _adcPed, _adcMult
   * bound to that channel's slots), then 2 per TDC channel (_tdc, _tdcMult),
   * then the terminator; 3*numAdc + 2*numTdc + 1 entries in all.
   */
  lemma VarListShape(adcNames: seq<string>, tdcNames: seq<string>, numAdc: nat, numTdc: nat)
    requires numAdc <= |adcNames| && numTdc <= |tdcNames|
    ensures VarList(adcNames, tdcNames, numAdc, numTdc).Ok?
    ensures var vars := VarList(adcNames, tdcNames, numAdc, numTdc).value;
      && |vars| == 3 * numAdc + 2 * numTdc + 1
      && vars[|vars| - 1] == End
      && (forall k :: 0 <= k < |vars| - 1 ==> vars[k].Entry?)
      && (forall i :: 0 <= i < numAdc ==>
            && vars[3 * i] == Entry(adcNames[i] + "_adc", Slot(AdcVal, i))
            && vars[3 * i + 1] == Entry(adcNames[i] + "_adcPed", Slot(AdcPedestal, i))
            && vars[3 * i + 2] == Entry(adcNames[i] + "_adcMult", Slot(AdcMultiplicity, i)))
      && (forall j :: 0 <= j < numTdc ==>
            && vars[3 * numAdc + 2 * j] == Entry(tdcNames[j] + "_tdc", Slot(TdcVal, j))
            && vars[3 * numAdc + 2 * j + 1] == Entry(tdcNames[j] + "_tdcMult", Slot(TdcMultiplicity, j)))
  {
    AdcEntriesShape(adcNames, numAdc);
    TdcEntriesShape(tdcNames, numTdc);
    var a := AdcEntries(adcNames, numAdc);
    var t := TdcEntries(tdcNames, numTdc);
    var vars := a + t + [End];
    assert VarList(adcNames, tdcNames, numAdc, numTdc) == Ok(vars);
    forall k | 0 <= k < |vars| - 1 ensures vars[k].Entry? {
      if k < |a| { assert vars[k] == a[k]; } else { assert vars[k] == t[k - |a|]; }
    }
    forall i | 0 <= i < numAdc
      ensures && vars[3 * i] == Entry(adcNames[i] + "_adc", Slot(AdcVal, i))
              && vars[3 * i + 1] == Entry(adcNames[i] + "_adcPed", Slot(AdcPedestal, i))
              && vars[3 * i + 2] == Entry(adcNames[i] + "_adcMult", Slot(AdcMultiplicity, i))
    {
      assert vars[3 * i] == a[3 * i] && vars[3 * i + 1] == a[3 * i + 1] && vars[3 * i + 2] == a[3 * i + 2];
    }
    forall j | 0 <= j < numTdc
      ensures && vars[3 * numAdc + 2 * j] == Entry(tdcNames[j] + "_tdc", Slot(TdcVal, j))
              && vars[3 * numAdc + 2 * j + 1] == Entry(tdcNames[j] + "_tdcMult", Slot(TdcMultiplicity, j))
    {
      assert vars[3 * numAdc + 2 * j] == t[2 * j] && vars[3 * numAdc + 2 * j + 1] == t[2 * j + 1];
    }
  }

  /**
   * The published variables read the decoded data: after a completed walk,
   * the three entries of ADC channel counter-1 are bound to slots that read
   * the values of the last plane-1 hit on that counter.
   */
  lemma PublishedAdcReadsLastHit(c: ChannelState, hs: seq<TrigRawHit>, k: nat,
                                 adcNames: seq<string>, tdcNames: seq<string>, numAdc: nat, numTdc: nat)
    requires c.WellFormed() && k < |hs| && DecodeHits(c, hs).Decoded?
    requires hs[k].plane == 1 && 1 <= hs[k].counter <= numAdc
    requires forall j :: k < j < |hs| ==> !(hs[j].plane == 1 && hs[j].counter == hs[k].counter)
    requires numAdc <= MaxAdcChannels && numAdc <= |adcNames| && numTdc <= |tdcNames|
    ensures var vars, d, i := VarList(adcNames, tdcNames, numAdc, numTdc).value, DecodeHits(c, hs).state, hs[k].counter - 1;
      && vars[3 * i] == Entry(adcNames[i] + "_adc", Slot(AdcVal, i))
      && vars[3 * i + 1] == Entry(adcNames[i] + "_adcPed", Slot(AdcPedestal, i))
      && vars[3 * i + 2] == Entry(adcNames[i] + "_adcMult", Slot(AdcMultiplicity, i))
      && Read(d, vars[3 * i].slot) == hs[k].adcValue
      && Read(d, vars[3 * i + 1].slot) == hs[k].adcPedestal
      && Read(d, vars[3 * i + 2].slot) == hs[k].adcMultiplicity
  {
    LastAdcHitWins(c, hs, k);
    VarListShape(adcNames, tdcNames, numAdc, numTdc);
  }

  /** The same for a TDC channel and the last plane-2 hit on its counter. */
  lemma PublishedTdcReadsLastHit(c: ChannelState, hs: seq<TrigRawHit>, k: nat,
                                 adcNames: seq<string>, tdcNames: seq<string>, numAdc: nat, numTdc: nat)
    requires c.WellFormed() && k < |hs| && DecodeHits(c, hs).Decoded?
    requires hs[k].plane == 2 && 1 <= hs[k].counter <= numTdc
    requires forall j :: k < j < |hs| ==> !(hs[j].plane == 2 && hs[j].counter == hs[k].counter)
    requires numTdc <= MaxTdcChannels && numAdc <= |adcNames| && numTdc <= |tdcNames|
    ensures var vars, d, j := VarList(adcNames, tdcNames, numAdc, numTdc).value, DecodeHits(c, hs).state, hs[k].counter - 1;
      && vars[3 * numAdc + 2 * j] == Entry(tdcNames[j] + "_tdc", Slot(TdcVal, j))
      && vars[3 * numAdc + 2 * j + 1] == Entry(tdcNames[j] + "_tdcMult", Slot(TdcMultiplicity, j))
      && Read(d, vars[3 * numAdc + 2 * j].slot) == hs[k].tdcValue
      && Read(d, vars[3 * numAdc + 2 * j + 1].slot) == hs[k].tdcMultiplicity
  {
    LastTdcHitWins(c, hs, k);
    VarListShape(adcNames, tdcNames, numAdc, numTdc);
  }

  // ---------------------------------------------------------------------
  // The parameter prefix and the engine ID

  /** The prefix has no upper-case letter, and apparatus names that differ only in case give the same prefix. */
  lemma PrefixIgnoresCase(appName: string, name: string)
    ensures forall i :: 0 <= i < |Lower(appName + "_" + name)| ==> !IsUpper(Lower(appName + "_" + name)[i])
    ensures Lower(Upper(appName) + "_" + name) == Lower(appName + "_" + name)
  {
    LowerAppend(Upper(appName), "_" + name);
    LowerAppend(appName, "_" + name);
    assert Upper(appName) + "_" + name == Upper(appName) + ("_" + name);
    assert appName + "_" + name == appName + ("_" + name);
    LowerOfUpper(appName);
  }

  /** The engine ID is the upper-cased first letter of the apparatus followed by the upper-cased detector name. */
  lemma EngineDIDShape(appName: string, name: string)
    ensures |appName| >= 1 ==> EngineDID(appName, name) == [UpperChar(appName[0])] + Upper(name)
    ensures |appName| == 0 ==> EngineDID(appName, name) == Upper(name)
    ensures |EngineDID(appName, name)| == |name| + (if |appName| >= 1 then 1 else 0)
  {
    var head := appName[..if |appName| >= 1 then 1 else 0];
    UpperAppend(head, name);
    UpperAt(name);
    UpperAt(head + name);
    if |appName| == 0 {
      assert head + name == name;
    }
  }

  // ---------------------------------------------------------------------
  // A run of two events, from the contracts alone

  /** Setup of a detector with two ADC channels A, B and one TDC channel T. */
  method ScenarioSetup() returns (det: TrigDet)
    ensures det.Valid() && det.numAdc == 2 && det.numTdc == 1
    ensures det.adcVal[2] == -1
  {
    det := new TrigDet(2, 1, ["A", "B"], ["T"]);
    var st, did := det.Init("HMS", "trig", OK, 0);
    assert st == OK && did == Some(EngineDID("HMS", "trig"));
    var defined := det.DefineVariables(Define);
    assert defined == Published(VarList(["A", "B"], ["T"], 2, 1).value);
    var again := det.DefineVariables(Define);
    assert again == AlreadySetUp;
  }

  /**
   * Event 1 fills A, B and T; event 2 has no hits, so the configured value
   * slots read 0, the unconfigured ones -1, and pedestals keep event 1's values.
   */
  method ScenarioEvents(det: TrigDet)
    requires det.Valid() && det.numAdc == 2 && det.numTdc == 1
    requires det.adcVal[2] == -1
    modifies det.adcVal, det.adcPedestal, det.adcMultiplicity, det.tdcVal, det.tdcMultiplicity
  {
    det.Clear();
    assert det.adcVal[..][2] == -1 && det.adcVal[..][0] == 0;
    var hits := [TrigRawHit(1, 1, 10, 1, 1, 0, 0), TrigRawHit(1, 2, 20, 2, 1, 0, 0),
                 TrigRawHit(2, 1, 0, 0, 0, 5, 1)];
    ghost var c1 := det.State();
    var r := det.Decode(hits);
    DecodedIffAllAccepted(c1, hits);
    LastAdcHitWins(c1, hits, 0);
    LastAdcHitWins(c1, hits, 1);
    LastTdcHitWins(c1, hits, 2);
    UnaddressedAdcSlotKept(c1, hits, 2);
    assert r == Ok(0);
    assert det.adcVal[..][0] == 10 && det.adcPedestal[..][0] == 1 && det.adcMultiplicity[..][0] == 1;
    assert det.adcVal[..][1] == 20 && det.adcPedestal[..][1] == 2 && det.adcMultiplicity[..][1] == 1;
    assert det.tdcVal[..][0] == 5 && det.tdcMultiplicity[..][0] == 1;

    det.Clear();
    r := det.Decode([]);
    assert det.adcVal[..][0] == 0 && det.adcVal[..][1] == 0 && det.tdcVal[..][0] == 0;
    assert det.adcVal[..][2] == -1 && det.adcPedestal[..][1] == 2;
  }
}
