/**
 * A drift-chamber wire (or any element read out by one multihit TDC channel):
 * a bounded, append-only buffer of TDC samples with an optional reference time.
 */
module RawDCHit {

  import opened Common

  /** Capacity of the sample buffer, fMaxNSamplesTDC. */
  const MaxNSamplesTDC: nat := 16

  /** Error raised by SetData. */
  datatype HitError = TooManySamples

  /** Lexicographic order on (plane, counter), the order hit lists are sorted in. */
  predicate KeyLess(p1: int, c1: int, p2: int, c2: int)
  {
    p1 < p2 || (p1 == p2 && c1 < c2)
  }

  class RawDCHit {
    var plane: int
    var counter: int
    var tdc: array<int>
    var nHits: nat
    var referenceTime: int
    var hasRef: bool

    ghost predicate Valid()
      reads this
    {
      tdc.Length == MaxNSamplesTDC && nHits <= tdc.Length
    }

    /** The samples stored so far, fTDC[0..fNHits). */
    ghost function Samples(): seq<int>
      reads this, tdc
      requires Valid()
    {
      tdc[..nHits]
    }

    constructor (plane: int, counter: int)
      ensures Valid() && fresh(tdc)
      ensures this.plane == plane && this.counter == counter
      ensures Samples() == [] && !hasRef && referenceTime == 0
    {
      this.plane := plane;
      this.counter := counter;
      tdc := new int[MaxNSamplesTDC];
      nHits := 0;
      referenceTime := 0;
      hasRef := false;
    }

    /** Appends one sample; a full buffer raises instead and keeps its state. */
    method SetData(data: int) returns (r: Result<(), HitError>)
      requires Valid()
      modifies this`nHits, tdc
      ensures Valid()
      ensures r.Err? <==> old(nHits) >= MaxNSamplesTDC
      ensures r.Ok? ==> Samples() == old(Samples()) + [data]
      ensures r.Err? ==> Samples() == old(Samples()) && nHits == old(nHits)
      ensures r.Err? ==> tdc[..] == old(tdc[..])
    {
      if nHits >= MaxNSamplesTDC {
        return Err(TooManySamples);
      }
      tdc[nHits] := data;
      nHits := nHits + 1;
      r := Ok(());
    }

    /** Sample ihit with the reference time subtracted when one is set, or -1 past the end. */
    function GetData(ihit: nat): (r: int)
      reads this, tdc
      requires Valid()
      ensures ihit >= nHits ==> r == -1
      ensures ihit < nHits ==> r == Samples()[ihit] - GetReference()
    {
      if ihit < nHits then
        if hasRef then tdc[ihit] - referenceTime else tdc[ihit]
      else
        -1
    }

    /** Sample ihit as stored, or -1 past the end; never looks at the reference. */
    function GetRawData(ihit: nat): (r: int)
      reads this, tdc
      requires Valid()
      ensures ihit < nHits ==> r == Samples()[ihit]
      ensures ihit >= nHits ==> r == -1
    {
      if ihit < nHits then tdc[ihit] else -1
    }

    /** The first sample with the reference subtracted, or -1 when there is none. */
    function GetFirstData(): (r: int)
      reads this, tdc
      requires Valid()
      ensures r == GetData(0)
    {
      if nHits > 0 then
        if hasRef then tdc[0] - referenceTime else tdc[0]
      else
        -1
    }

    /** The first sample as stored, or -1 when there is none. */
    function GetFirstRawData(): (r: int)
      reads this, tdc
      requires Valid()
      ensures r == GetRawData(0)
    {
      if nHits > 0 then tdc[0] else -1
    }

    method SetReference(reference: int)
      modifies this`referenceTime, this`hasRef
      ensures referenceTime == reference && hasRef
      ensures GetReference() == reference
    {
      referenceTime := reference;
      hasRef := true;
    }

    /** The reference time, or 0 when none has been set. */
    function GetReference(): (r: int)
      reads this
      ensures hasRef ==> r == referenceTime
      ensures !hasRef ==> r == 0
    {
      if hasRef then referenceTime else 0
    }

    /**
     * Three-way comparison by (plane, counter); an object that is not a raw
     * DC hit (modelled as null) compares as greater.
     */
    function Compare(other: RawDCHit?): (r: int)
      reads this, other
      ensures -1 <= r <= 1
      ensures other == null ==> r == -1
      ensures other != null ==> (r == 0 <==> plane == other.plane && counter == other.counter)
      ensures other != null ==> (r < 0 <==> KeyLess(plane, counter, other.plane, other.counter))
      ensures other != null ==> (r > 0 <==> KeyLess(other.plane, other.counter, plane, counter))
    {
      if other == null then -1
      else if plane < other.plane then -1
      else if plane > other.plane then 1
      else if counter < other.counter then -1
      else if counter == other.counter then 0
      else 1
    }

    /**
     * operator=: copy the key, the sample count, the reference and the first
     * nHits samples of rhs; assigning an object to itself changes nothing.
     */
    method Assign(rhs: RawDCHit)
      requires Valid() && rhs.Valid()
      requires rhs != this ==> rhs.tdc != tdc
      modifies this, tdc
      ensures Valid() && tdc == old(tdc)
      ensures plane == old(rhs.plane) && counter == old(rhs.counter)
      ensures nHits == old(rhs.nHits) && referenceTime == old(rhs.referenceTime)
      ensures hasRef == old(rhs.hasRef)
      ensures Samples() == old(rhs.Samples())
      ensures rhs != this ==> rhs.Samples() == old(rhs.Samples())
    {
      plane, counter := rhs.plane, rhs.counter;
      if this != rhs {
        nHits := rhs.nHits;
        referenceTime := rhs.referenceTime;
        hasRef := rhs.hasRef;
        var ihit := 0;
        while ihit < nHits
          invariant 0 <= ihit <= nHits == rhs.nHits
          invariant rhs.tdc[..] == old(rhs.tdc[..])
          invariant tdc[..ihit] == rhs.tdc[..ihit]
          modifies tdc
        {
          tdc[ihit] := rhs.tdc[ihit];
          assert tdc[..ihit + 1] == tdc[..ihit] + [tdc[ihit]];
          assert rhs.tdc[..ihit + 1] == rhs.tdc[..ihit] + [rhs.tdc[ihit]];
          ihit := ihit + 1;
        }
      }
    }
  }

  /** With samples present, the corrected value is the raw value minus GetReference. */
  lemma DataIsRawMinusReference(h: RawDCHit, ihit: nat)
    requires h.Valid() && ihit < h.nHits
    ensures h.GetData(ihit) == h.GetRawData(ihit) - h.GetReference()
  {
  }

  /** Without a reference time the corrected and raw getters agree everywhere. */
  lemma NoReferenceDataIsRaw(h: RawDCHit, ihit: nat)
    requires h.Valid() && !h.hasRef
    ensures h.GetData(ihit) == h.GetRawData(ihit)
  {
  }

  /** An empty hit answers -1 from every getter. */
  lemma EmptyHitReadsMinusOne(h: RawDCHit, ihit: nat)
    requires h.Valid() && h.nHits == 0
    ensures h.GetData(ihit) == -1 && h.GetRawData(ihit) == -1
    ensures h.GetFirstData() == -1 && h.GetFirstRawData() == -1
  {
  }

  /** Compare is antisymmetric. */
  lemma CompareAntisymmetric(a: RawDCHit, b: RawDCHit)
    ensures a.Compare(b) == -b.Compare(a)
  {
  }

  /** Compare is transitive, so it orders hits totally by (plane, counter). */
  lemma CompareTransitive(a: RawDCHit, b: RawDCHit, c: RawDCHit)
    requires a.Compare(b) <= 0 && b.Compare(c) <= 0
    ensures a.Compare(c) <= 0
    ensures a.Compare(b) < 0 || b.Compare(c) < 0 ==> a.Compare(c) < 0
  {
  }

  /** A client of the contracts alone: fill, read back, overflow. */
  method FillAndRead(x: int, y: int, ref: int)
  {
    var h := new RawDCHit(1, 7);
    var r := h.SetData(x);
    r := h.SetData(y);
    assert h.GetRawData(1) == y && h.GetData(2) == -1;
    h.SetReference(ref);
    assert h.GetData(0) == x - ref && h.GetFirstRawData() == x;
    var i := 2;
    while i < MaxNSamplesTDC
      invariant 2 <= i <= MaxNSamplesTDC
      invariant h.Valid() && h.nHits == i && fresh(h.tdc)
    {
      r := h.SetData(0);
      i := i + 1;
    }
    r := h.SetData(0);
    assert r.Err?;
  }
}
