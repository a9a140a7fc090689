# hcana trigger detector, drift-chamber raw hit and scintillator-plane bookkeeping

A Dafny model of three pieces of per-event integer logic from the hcana
analyzer of Hall C at Jefferson Lab:

- **Trigger detector** (`TrigDet.dfy`, module `TrigDetector`). The class
  `TrigDet` owns five fixed-capacity channel arrays: ADC value, ADC pedestal
  and ADC multiplicity, TDC value and TDC multiplicity, 100 slots each.
  - `Init` writes the -1 sentinel over both value arrays.
  - `Clear` zeroes only the configured prefix of the value arrays.
  - `Decode` applies the event's hits in order. A plane-1 hit writes the
    three ADC slots of `counter-1`; a plane-2 hit writes the two TDC slots.
    Any other plane stops the walk with an error.
  - `DefineVariables` builds the published variable list: three entries
    per ADC name, two per TDC name, then a terminator. It is guarded by the
    `isSetup` flag.
  - `Setup` builds the lower-cased parameter prefix; `Init` builds the
    upper-cased engine detector ID. Case mapping is in `AsciiCase.dfy`.

  The decode walk is specified by the pure functions `ApplyHit`/`DecodeHits`
  over a `ChannelState` value. The lemmas prove that the last hit wins, that
  an unknown plane aborts while earlier effects persist, that unaddressed
  slots are kept, and the shape of the variable list.
- **Multihit TDC raw hit** (`RawDCHit.dfy`). The class `RawDCHit` is a
  bounded append-only sample buffer with an optional reference time. It has
  the getters (reference-subtracted, raw, first-sample forms), the
  three-way (plane, counter) `Compare`, and `operator=` as `Assign`.
- **Scintillator plane** (`ScintillatorPlane.dfy`), integer parts only:
  - the plane-bounded walk over the sorted raw-hit list that starts at
    `nexthit` (`WalkEnd`, `Walked`);
  - the signal lists `ProcessHits` fills;
  - the search for the first TDC time inside `[scinTdcMin, scinTdcMax]`;
  - the good-hit list and its count `nScinHits`;
  - the pedestal accumulators: sum, sum of squares, count and an adaptive
    limit per element and PMT side, as the class `PedestalArrays`, with
    `AccumulatePedestals` and `InitializePedestals`.

`Common.dfy` has `Option`, `Result`, and `CDiv`, C++'s signed division that
truncates toward zero.

Inputs from outside the core become parameters:
- the hit list is a sequence of structured hits;
- the channel counts and the name lists are constructor arguments;
- the apparatus name is a method argument;
- the base-class `Init` status and the detector-map fill result are
  arguments of `TrigDet.Init`.

Points where the model makes a choice the code leaves open:
- **Counter range in `Decode`.** The code writes `fAdcVal[counter-1]`
  without checking the counter, so a counter outside `1..100` writes
  outside the 100-slot arrays. The model treats a counter outside `1..100` as
  `CounterOutOfRange` and stops the walk there, as the unknown-plane
  exception does.
- **The sentinel.** The code writes the -1 sentinel in `Init` (lines
  131-132). The constructor value-initialises the arrays to 0.
- **`Decode`'s result.** It always returns 0 when it completes.
- **A second `DefineVariables`.** It returns at once only when the mode is
  `kDefine` and the detector is already set up. In any other mode the list
  is built again.

## Model

| member | source | states |
|---|---|---|
| Common.CDiv | src/THcScintillatorPlane.cxx:748 | integer division of the sum by the count truncates toward zero: for a non-negative dividend, q*b <= a < q*b + b; for a negative one, the mirror bounds |
| AsciiCase.LowerChar | src/THcTrigDet.cxx:202 | ::tolower maps A-Z to a-z (code point + 32) and leaves every other character unchanged |
| AsciiCase.UpperChar | src/THcTrigDet.cxx:147 | ::toupper maps a-z to A-Z (code point - 32) and leaves every other character unchanged |
| AsciiCase.LowerAt | src/THcTrigDet.cxx:202 | std::transform with ::tolower keeps the length and maps each position independently |
| AsciiCase.UpperAt | src/THcTrigDet.cxx:147 | std::transform with ::toupper keeps the length and maps each position independently |
| AsciiCase.Lower | src/THcTrigDet.cxx:202 | std::transform with ::tolower keeps the length and leaves no upper-case letter |
| AsciiCase.Upper | src/THcTrigDet.cxx:147 | std::transform with ::toupper keeps the length and leaves no lower-case letter |
| AsciiCase.LowerIdempotent | src/THcTrigDet.cxx:202 | lower-casing twice gives the same prefix as lower-casing once |
| AsciiCase.LowerAppend | src/THcTrigDet.cxx:201-202 | lower-casing the concatenated prefix equals concatenating the lower-cased parts |
| AsciiCase.UpperAppend | src/THcTrigDet.cxx:146-147 | upper-casing the concatenated engine ID equals concatenating the upper-cased parts |
| AsciiCase.LowerOfUpper | src/THcTrigDet.cxx:202 | lower-casing erases any earlier upper-casing |
| TrigDetector.ApplyHit | src/THcTrigDet.cxx:177-190 | one hit is applied exactly when its plane is 1 or 2 and its counter addresses a slot of that plane's 100-slot arrays; otherwise the walk aborts and the state is unchanged; capacities are kept |
| TrigDetector.DecodeHits | src/THcTrigDet.cxx:173-193 | walking the hits in order keeps every array at its fixed capacity |
| TrigDetector.AdcEntries | src/THcTrigDet.cxx:238-265 | the ADC loop pushes three entries per channel |
| TrigDetector.TdcEntries | src/THcTrigDet.cxx:270-288 | the TDC loop pushes two entries per channel |
| TrigDetector.VarList | src/THcTrigDet.cxx:231-291 | there is a list exactly when both counts are non-negative and no larger than their name lists, and it then has 3*numAdc + 2*numTdc + 1 entries; a negative ADC count raises length_error first; an ADC count beyond the names raises out_of_range from at() |
| TrigDetector.BuildVarList | src/THcTrigDet.cxx:231-291 | the push_back loops yield exactly VarList: the ADC triples, then the TDC pairs, then the terminator; a negative count or a name list shorter than its count raises instead |
| TrigDetector.TrigDet.constructor | src/THcTrigDet.cxx:112-120 | empty prefix, not set up, the given counts and names, all five arrays fresh and value-initialised to 0 |
| TrigDetector.TrigDet.Setup | src/THcTrigDet.cxx:199-204 | the prefix becomes lower(apparatus + "_" + detector name) |
| TrigDetector.TrigDet.Init | src/THcTrigDet.cxx:126-156 | Setup's prefix; every slot of both value arrays (full capacity) is -1 and nothing else changes; a failed base init is returned and stored; otherwise the engine ID is built, and a negative map fill gives kInitError without touching the status; success stores and returns kOK |
| TrigDetector.TrigDet.Clear | src/THcTrigDet.cxx:159-165 | value slots below numAdc/numTdc become 0; every other value slot and the pedestal and multiplicity arrays are unchanged |
| TrigDetector.TrigDet.Decode | src/THcTrigDet.cxx:168-196 | the arrays end as DecodeHits of the pre-event state; the result is Ok(0) when every hit was applied, otherwise the error of the hit that stopped the walk |
| TrigDetector.TrigDet.DefineVariables | src/THcTrigDet.cxx:227-294 | kDefine while already set up returns at once; otherwise isSetup records whether the mode is kDefine and the list handed on is VarList, or the exception building it raises |
| TrigDetector.AbortedPrefixIsFinal | src/THcTrigDet.cxx:186-190 | once a prefix of the hits has aborted, the remaining hits change neither the state nor the error |
| TrigDetector.DecodedPrefix | src/THcTrigDet.cxx:174-193 | a walk that completes also completes on every prefix |
| TrigDetector.DecodedIffAllAccepted | src/THcTrigDet.cxx:174-193 | the walk completes if and only if every hit is accepted |
| TrigDetector.AbortKeepsPrefixEffects | src/THcTrigDet.cxx:177-192 | at the first rejected hit the walk aborts with that hit's error; the effects of the hits before it persist and no later hit is applied |
| TrigDetector.AdcHitWritesItsSlot | src/THcTrigDet.cxx:177-181 | a plane-1 hit writes its value, pedestal and multiplicity at counter-1; every other slot and both TDC arrays are unchanged |
| TrigDetector.TdcHitWritesItsSlot | src/THcTrigDet.cxx:182-185 | a plane-2 hit writes its value and multiplicity at counter-1; every other slot and all three ADC arrays are unchanged |
| TrigDetector.LastAdcHitWins | src/THcTrigDet.cxx:174-181 | in a completed walk, an ADC channel ends with the values of the last plane-1 hit on its counter |
| TrigDetector.LastTdcHitWins | src/THcTrigDet.cxx:182-185 | in a completed walk, a TDC channel ends with the values of the last plane-2 hit on its counter |
| TrigDetector.UnaddressedAdcSlotKept | src/THcTrigDet.cxx:177-181 | an ADC channel that no plane-1 hit addresses keeps its pre-event values, whether or not the walk completes |
| TrigDetector.UnaddressedTdcSlotKept | src/THcTrigDet.cxx:182-185 | a TDC channel that no plane-2 hit addresses keeps its pre-event values, whether or not the walk completes |
| TrigDetector.ResetAfterSentinel | src/THcTrigDet.cxx:131-164 | after the Init sentinel and a Clear, configured value slots read 0 and unconfigured slots still read -1 |
| TrigDetector.AdcEntriesShape | src/THcTrigDet.cxx:238-265 | n ADC names yield 3n entries; channel i's entries are name_adc, name_adcPed, name_adcMult, bound to slot i of the value, pedestal and multiplicity arrays |
| TrigDetector.TdcEntriesShape | src/THcTrigDet.cxx:270-288 | n TDC names yield 2n entries; channel j's entries are name_tdc and name_tdcMult, bound to slot j of the TDC arrays |
| TrigDetector.VarListShape | src/THcTrigDet.cxx:228-293 | with enough names the list has 3*numAdc + 2*numTdc + 1 entries: ADC entries first, then TDC entries, then the terminator |
| TrigDetector.PrefixIgnoresCase | src/THcTrigDet.cxx:201-203 | the prefix has no upper-case letter, and it does not depend on the case of the apparatus name |
| TrigDetector.EngineDID | src/THcTrigDet.cxx:146-147 | the engine ID has one character for the apparatus (none when its name is empty) plus one per detector-name character, and no lower-case letter |
| TrigDetector.PublishedAdcReadsLastHit | src/THcTrigDet.cxx:177-181 | after a completed decode, the name_adc, name_adcPed and name_adcMult entries of an ADC channel are bound to slots that read the value, pedestal and multiplicity of the last plane-1 hit on its counter |
| TrigDetector.PublishedTdcReadsLastHit | src/THcTrigDet.cxx:182-185 | after a completed decode, the name_tdc and name_tdcMult entries of a TDC channel are bound to slots that read the value and multiplicity of the last plane-2 hit on its counter |
| TrigDetector.EngineDIDShape | src/THcTrigDet.cxx:146-147 | the engine ID is the upper-cased first letter of the apparatus name (none when that name is empty) followed by the upper-cased detector name |
| TrigDetector.ScenarioSetup | src/THcTrigDet.cxx:126-132 | a detector configured with ADC channels A, B and TDC channel T is valid after Init and DefineVariables, and its unconfigured ADC slot 2 reads -1 |
| RawDCHit.RawDCHit.SetData | src/THcRawDCHit.cxx:15-18 | with room in the buffer, the sample is appended; a full buffer raises instead, and the count and the samples stay as they were |
| RawDCHit.RawDCHit.GetData | src/THcRawDCHit.cxx:43-53 | sample ihit minus the reference (0 when none is set) when ihit < nHits, otherwise -1 |
| RawDCHit.RawDCHit.GetRawData | src/THcRawDCHit.cxx:56-62 | sample ihit as stored when ihit < nHits, otherwise -1 |
| RawDCHit.RawDCHit.GetFirstData | src/THcRawDCHit.cxx:21-31 | the one-argument GetData equals the two-argument form for sample 0 |
| RawDCHit.RawDCHit.GetFirstRawData | src/THcRawDCHit.cxx:34-40 | the one-argument GetRawData equals the two-argument form for sample 0 |
| RawDCHit.RawDCHit.SetReference | src/THcRawDCHit.cxx:65-68 | the reference is stored and flagged, so GetReference returns it |
| RawDCHit.RawDCHit.GetReference | src/THcRawDCHit.cxx:71-77 | the reference time when one is set, otherwise 0 |
| RawDCHit.RawDCHit.Compare | src/THcRawDCHit.cxx:79-98 | -1, 0 or 1; 0 iff plane and counter are equal; negative iff this hit precedes the other in (plane, counter) order; positive iff it follows; a non-DC-hit object gives -1 |
| RawDCHit.RawDCHit.Assign | src/THcRawDCHit.cxx:100-114 | the copy has rhs's plane, counter, sample count, reference, has-ref flag and samples; rhs is unchanged; self-assignment changes nothing |
| RawDCHit.DataIsRawMinusReference | src/THcRawDCHit.cxx:43-62 | for a stored sample, the corrected value is the raw value minus GetReference |
| RawDCHit.NoReferenceDataIsRaw | src/THcRawDCHit.cxx:43-62 | without a reference, GetData and GetRawData agree at every index |
| RawDCHit.EmptyHitReadsMinusOne | src/THcRawDCHit.cxx:21-62 | a hit with no samples answers -1 from all four getters |
| RawDCHit.CompareAntisymmetric | src/THcRawDCHit.cxx:87-97 | Compare(a, b) == -Compare(b, a) |
| RawDCHit.CompareTransitive | src/THcRawDCHit.cxx:87-97 | Compare is transitive both non-strictly and strictly, so it is a total preorder on (plane, counter) |
| ScintillatorPlane.Walked | src/THcScintillatorPlane.cxx:515-519 | the hits the walk visits, in order; WalkMeaning proves what they are |
| ScintillatorPlane.WalkEnd | src/THcScintillatorPlane.cxx:515-519 | the walk never ends before its start |
| ScintillatorPlane.WalkStep | src/THcScintillatorPlane.cxx:515-519 | a hit of this plane or an earlier one is visited, and the walk goes on from the next index |
| ScintillatorPlane.WalkStop | src/THcScintillatorPlane.cxx:515-519 | at the end of the list or at a hit of a later plane, the walk stops and visits nothing more |
| ScintillatorPlane.WalkMeaning | src/THcScintillatorPlane.cxx:515-520 | from nexthit <= nrawhits, the walk returns r with nexthit <= r <= nrawhits; the visited hits are exactly rawhits[nexthit..r), all with plane <= planeNum; and r is the end of the list or a hit with plane > planeNum |
| ScintillatorPlane.WindowScan | src/THcScintillatorPlane.cxx:606-617 | a time it reports as found lies inside the window; with no sample, the flag stays false and the time keeps its initial value |
| ScintillatorPlane.WindowScanMeaning | src/THcScintillatorPlane.cxx:606-617 | the flag is set iff some time + offset lies in [min, max]; then tdc is the first such value; otherwise tdc is the last time looked at, and the initial value when there is none |
| ScintillatorPlane.FindTdcInWindow | src/THcScintillatorPlane.cxx:608-617 | the loop with its early break computes the scan from the initial -999 |
| ScintillatorPlane.GoodHitMeaning | src/THcScintillatorPlane.cxx:606-632 | a paddle yields one good hit iff either PMT has an in-window TDC time; that hit carries the paddle, an in-window time on at least one side, and -999 on a side with no sample |
| ScintillatorPlane.GoodHitsMeaning | src/THcScintillatorPlane.cxx:627-713 | the number of good hits is the number of walked paddles with a good TDC, never more than the hits walked; each good hit carries the counter of a walked hit and an in-window time |
| ScintillatorPlane.SideListsLengths | src/THcScintillatorPlane.cxx:524-571 | each raw TDC list has one entry per TDC sample over the walked hits; each ADC list has one entry per pulse; the first-TDC list has one entry per hit with a sample, never more than the hits walked |
| ScintillatorPlane.SideListsPaddles | src/THcScintillatorPlane.cxx:524-571 | every entry of every signal list carries the paddle number of one of the walked hits |
| ScintillatorPlane.HitSignals | src/THcScintillatorPlane.cxx:524-571 | one hit adds to one side one raw TDC entry and one TDC-time entry per sample, one entry per pulse to each ADC list, and one first-TDC entry when it has a sample |
| ScintillatorPlane.SideLists | src/THcScintillatorPlane.cxx:515-571 | over the walked hits, the first-TDC list has at most one entry per hit |
| ScintillatorPlane.GoodHit | src/THcScintillatorPlane.cxx:627-632 | a paddle yields at most one good hit, carrying its counter and an in-window time on at least one side |
| ScintillatorPlane.GoodHits | src/THcScintillatorPlane.cxx:627-713 | the good hits over the walked hits are never more than those hits |
| ScintillatorPlane.CollectSide | src/THcScintillatorPlane.cxx:524-571 | the inner loops append, for one PMT side, exactly the signals HitSignals prescribes |
| ScintillatorPlane.ProcessHit | src/THcScintillatorPlane.cxx:520-715 | one loop iteration extends every list as for the walked hits plus this one; the good-hit list grows by one exactly when the hit is good |
| ScintillatorPlane.AddPedestal | src/THcScintillatorPlane.cxx:743-758 | a value above the limit leaves the element unchanged; one at or below it adds adc to the sum, adc*adc to the sum of squares and 1 to the count; the limit changes only when the count has just reached minPeds/5 |
| ScintillatorPlane.AccumulateHits | src/THcScintillatorPlane.cxx:733-760 | accumulating over the walked hits keeps the number of elements |
| ScintillatorPlane.AddPedestalConsistent | src/THcScintillatorPlane.cxx:743-746 | accepting a value keeps count*sum2 >= sum*sum and sum2 >= 0, so the sample variance stays non-negative |
| ScintillatorPlane.AccumulateHitsConsistent | src/THcScintillatorPlane.cxx:733-760 | accumulating any walked hits keeps every element's sums consistent |
| ScintillatorPlane.InitializedStaysConsistent | src/THcScintillatorPlane.cxx:814-823 | accumulators that start initialised stay consistent whatever hits are offered |
| ScintillatorPlane.AccumulateHitsElement | src/THcScintillatorPlane.cxx:739-758 | an element's count never shrinks and grows by at most the number of hits addressing it; an element that no hit addresses is left exactly as it was |
| ScintillatorPlane.TightenedLimit | src/THcScintillatorPlane.cxx:747-749 | when the count reaches minPeds/5, the new limit is 100 above the mean truncated toward zero: (limit-100)*count <= sum < (limit-99)*count for a non-negative sum, and (limit-101)*count < sum <= (limit-100)*count for a negative one |
| ScintillatorPlane.PedestalArrays.constructor | src/THcScintillatorPlane.cxx:814-823 | n elements, each with sum 0, sum of squares 0, count 0 and limit 1000 |
| ScintillatorPlane.PedestalArrays.Add | src/THcScintillatorPlane.cxx:743-750 | the four arrays of the addressed element change as AddPedestal says; every other element is unchanged |
| ScintillatorPlane.ScintillatorPlane.constructor | src/THcScintillatorPlane.cxx:70-72 | the plane number and the parameters given, no good hits, empty signal lists, and initialised pedestals |
| ScintillatorPlane.ScintillatorPlane.Clear | src/THcScintillatorPlane.cxx:370-404 | the signal lists and the good-hit list are emptied; the good-hit count is not touched |
| ScintillatorPlane.ScintillatorPlane.InitializePedestals | src/THcScintillatorPlane.cxx:792-824 | no pedestal events, minPeds 500, and every element of both sides gets sum 0, sum of squares 0, count 0 and limit 1000 in fresh arrays |
| ScintillatorPlane.ScintillatorPlane.AccumulateHit | src/THcScintillatorPlane.cxx:739-758 | one hit's two raw pulse integrals are offered to its paddle's positive and negative accumulators |
| ScintillatorPlane.ScintillatorPlane.AccumulatePedestals | src/THcScintillatorPlane.cxx:724-765 | returns where the walk stops; both sides' accumulators become AccumulateHits over the walked hits; the pedestal event count grows by exactly one |
| ScintillatorPlane.ScintillatorPlane.ProcessHits | src/THcScintillatorPlane.cxx:442-721 | returns where the walk stops; the signal lists and the good-hit list are rebuilt from exactly the walked hits; nScinHits is the number of good hits |

## Left out

- Floating-point work in the scintillator plane is not modelled:
  - the ADC-mode pedestal subtraction, the diagnostic cut and its lists (lines 576-604);
  - the pulse-height, position and time-of-flight corrections (634-711);
  - the `fHodoSigma` computation;
  - `CalculatePedestals`;
  - the `fpTime` reset in `Clear`.

  A good hit keeps only its paddle and its two TDC values. The lists of
  pedestal-subtracted values (`frPosAdcPed`, `frPosAdcPulseInt`,
  `frPosAdcPulseAmp` and their negative counterparts) come from the
  floating-point side of the raw ADC hit and are left out too.
- `ReadDatabase` of both detectors is not modelled: it depends on the
  parameter loader and `vsplit`. Channel counts, names, plane geometry and
  the TDC window are given as inputs instead.
- `InitHitList`, `FillMap`, `DecodeToHitList` and `DefineVarsFromList` are
  framework collaborators. The hit list is an input sequence, the map-fill
  result is an input, and the variable list is returned rather than
  published.
- The `signal` parameters of the raw-hit getters and setters are unused by
  the code, so they are left out.
- `Int_t`'s 32-bit range is not modelled; signed overflow is undefined in
  C++. The ADC sums and sums of squares are unbounded integers.
- RawDCHit.RawDCHit.constructor: the capacity `fMaxNSamplesTDC` and the
  constructor come from the class header, which is not part of this model.
  The capacity is taken to be 16.
- ScintillatorPlane.ScintillatorPlane.AccumulatePedestals: requires every
  walked counter to lie in `1..nelem`. The code indexes the arrays
  unchecked; its comment says "should check if in range". The pure
  `AccumulateHits` stays total and ignores a counter outside the range.
- TrigDetector.TrigDet.constructor: requires `numAdc <= 100` and
  `numTdc <= 100`. The TODO at line 88 asks for the strict `<`; the model
  uses `<=`, the bound `Clear` needs. Without
  it, `Clear` would write past the arrays.
- ScintillatorPlane.ScintillatorPlane.ProcessHits: builds the lists in
  locals and assigns the fields at the end, where the code appends to the
  fields as it goes. Its per-side pedestal arrays are also grouped into one
  `PedestalArrays` object per PMT side; the code holds eight separate
  arrays.
- `cout`/`Error` logging, destructors, the scintillator plane's
  `TClonesArray`-allocating constructor, the empty `Decode`, `CoarseProcess`
  and `FineProcess` stubs, and ROOT class registration are not modelled.
- TrigDetector.TrigDet.Init: the base-class `THaDetector::Init` is reduced
  to its status, `baseStatus`. In the code it also calls `ReadDatabase` and
  `DefineVariables` (lines 134-136), so after a successful `Init` the
  detector is set up and its variables are published. The model's `Init`
  leaves `isSetup` unchanged; a caller runs `DefineVariables` itself, as
  `ScenarioSetup` does.
- TrigDetector.EngineDID: names are taken to be ASCII. A C++ `std::string`
  holds bytes: `substr(0, 1)` takes one byte, and `::tolower`/`::toupper`
  of a byte of 0x80 or above is undefined. The model's `string` holds
  Unicode characters and changes only A-Z and a-z. The same holds for the
  prefix built by `TrigDetector.TrigDet.Setup`.
- The no-index `GetPulseIntRaw()` of a raw ADC hit, read by
  `AccumulatePedestals` (lines 740-741), is the field `pulseIntRaw` of
  `AdcChannel`. It is an independent input, unrelated to the `pulses`
  list, because the raw ADC hit class is not part of this model.
