/** What building an Arrangement from a manifest and an XML arrangement file
    yields, as one function of the inputs: the arrangement's properties, the
    file's new typed content and the manifest's new cent offset, or the error
    the construction throws. */
module BuildSpec {
  import opened Wrappers
  import opened Text
  import opened SongXml
  import opened Manifest
  import opened ToneRules
  import opened ArrangementData

  /** The ways construction throws. */
  datatype BuildError =
    | ArrangementTypeMissing  // the manifest's ArrangementType is null, so its cast throws
    | NoDensitySample         // DynamicVisualDensity is empty, so Last() throws
    | ScrollSpeedOverflow     // Convert.ToInt32 of the scroll speed is outside Int32
    | ExtraneousToneData      // an RS2012 manifest (no tone list) names tones A to D
    | Tones(cause: ToneError) // tone reconciliation threw

  /** What a successful build leaves behind. */
  datatype Outcome = Outcome(props: ArrangementProps, file: XmlContent, centOffset: Option<real>)

  /** The properties of a freshly allocated Arrangement: nothing set. */
  const BlankProps := ArrangementProps(
    "", "", ArrangementProperties(0, 0, 0, OtherMetronome(0)), Guitar, 0, OtherName(""),
    None, None, Unset, 0, 0, 0, 0, false, OtherMetronome(0), NoSlots, None, "", 0, None, None)

  /** A fresh arrangement once the song file and the XML path are recorded. */
  function Started(path: string): ArrangementProps
  {
    BlankProps.(songXml := path)
  }

  const Int32Min := -0x8000_0000
  const Int32Max := 0x7FFF_FFFF

  /** Rounding to the nearest whole number, ties to the even one, as
      Convert.ToInt32 rounds a double. */
  function RoundHalfEven(x: real): (r: int)
    ensures x - 0.5 <= r as real <= x + 0.5
    ensures (r as real == x - 0.5 || r as real == x + 0.5) ==> r % 2 == 0
  {
    var f := x.Floor;
    var frac := x - f as real;
    if frac < 0.5 then f
    else if frac > 0.5 then f + 1
    else if f % 2 == 0 then f
    else f + 1
  }

  /** ScrollSpeed: the last density sample times 10, converted to Int32. */
  function ScrollSpeedOf(density: seq<real>): (r: Result<int, BuildError>)
    ensures density == [] <==> r == Failure(NoDensitySample)
    ensures density != [] ==>
      (r.Success? <==> Int32Min <= RoundHalfEven(density[|density| - 1] * 10.0) <= Int32Max)
    ensures r.Success? ==> Int32Min <= r.value <= Int32Max &&
                           r.value == RoundHalfEven(density[|density| - 1] * 10.0)
  {
    if density == [] then Failure(NoDensitySample)
    else
      var speed := RoundHalfEven(density[|density| - 1] * 10.0);
      if speed < Int32Min || speed > Int32Max then Failure(ScrollSpeedOverflow)
      else Success(speed)
  }

  /** The properties every kind copies from the manifest before the early return. */
  function ManifestCopies(attr: Attributes, path: string, kind: ArrangementType, speed: int): (v: ArrangementProps)
    ensures v.tones == NoSlots && v.comments.None? && v.tuning.None? && v.tuningStrings.None?
  {
    ArrangementProps(
      songFile := "", songXml := path, properties := attr.properties, kind := kind,
      sort := attr.arrangementSort, name := attr.arrangementName,
      tuning := None, tuningStrings := None, tuningPitch := Unset, capoFret := 0,
      scrollSpeed := speed, pluckedType := attr.properties.bassPick,
      routeMask := attr.properties.routeMask, bonusArr := attr.properties.bonusArr == 1,
      metronome := attr.properties.metronome, tones := NoSlots, toneMultiplayer := attr.toneMultiplayer,
      id := attr.persistentId, masterId := attr.masterId, comments := None, sng := None)
  }

  /** Where the branches meet, just before DetectTuning: the arrangement's
      properties, the file's typed content, the manifest's cent offset and the
      tuning the in-memory document holds. */
  datatype Prepared = Prepared(props: ArrangementProps, file: XmlContent, centOffset: Option<real>,
                               songTuning: Option<TuningStrings>)

  /** DetectTuning, then CapoFret and TuningPitch, on the properties v: the catalog
      is asked about the document's tuning, and a cent offset, when present,
      becomes the tuning pitch. */
  function Finished(v: ArrangementProps, cents: Option<real>, songTuning: Option<TuningStrings>, attr: Attributes,
                    detect: (Option<TuningStrings>, bool) -> TuningDefinition): (r: ArrangementProps)
    ensures r.tuning.Some? && r.tuningStrings.Some? && r.kind == v.kind && r.tones == v.tones
  {
    var t := detect(songTuning, v.kind.Guitar?);
    v.(tuning := Some(t.uiName), tuningStrings := Some(t.strings), capoFret := attr.capoFret,
       tuningPitch := if cents.Some? then FromCents(cents.value) else v.tuningPitch)
  }

  /** Tuning detection on what the branches prepared. */
  function Complete(p: Prepared, attr: Attributes,
                    detect: (Option<TuningStrings>, bool) -> TuningDefinition): (o: Outcome)
    ensures o.file == p.file && o.centOffset == p.centOffset
    ensures o.props.tuning.Some? && o.props.tuningStrings.Some? && o.props.kind == p.props.kind
  {
    Outcome(Finished(p.props, p.centOffset, p.songTuning, attr, detect), p.file, p.centOffset)
  }

  /** The low-bass repair is attempted for an RS2014 (version "7") bass
      arrangement, when asked for, whose manifest tunes the low string more than
      4 semitones down and whose cent offset is not already -1200. */
  predicate LowBassApplies(fixLowBass: bool, version: string, kind: ArrangementType,
                           attrTuning: TuningStrings, cents: Option<real>)
  {
    fixLowBass && version == "7" && kind.Bass? && attrTuning.string0 < -4 && cents != Some(-1200.0)
  }

  /** What the RS2014 branch changes before tuning detection: the arrangement's
      tone slots, the tuning strings it first takes from the document, the
      file's typed content, the manifest's cent offset and the tuning the
      in-memory document ends with. */
  datatype Rs2014State = Rs2014State(slots: Slots, tuningStrings: TuningStrings, file: XmlContent,
                                     centOffset: Option<real>, songTuning: Option<TuningStrings>)

  /** The RS2014 branch up to tuning detection: tone reconciliation, cleanup,
      standard-tuning default, save, optional low-bass repair. The arrangement's
      slots start unset. The repair's outcome is bassFix: None when it reports
      failure, otherwise the tuning it leaves in the rewritten file. */
  function Rs2014Branch(kind: ArrangementType, attr: Attributes, cents: Option<real>, file: XmlContent,
                        tones: seq<JsonTone>, fixMultiTone: bool, fixLowBass: bool,
                        bassFix: Option<TuningStrings>): (r: Result<Rs2014State, BuildError>)
    ensures var rec := Reconcile(ToneState(NoSlots, file.slots, file.tones), attr.slots, tones, fixMultiTone);
      && (r.Failure? <==> rec.Failure?)
      && (r.Failure? ==> r.error == Tones(rec.error))
      && (r.Success? ==>
            && r.value.file.tones == rec.value.entries
            && r.value.slots == Cleanup(rec.value, attr.slots).arr
            && r.value.file.slots == Cleanup(rec.value, attr.slots).doc
            && r.value.file.version == file.version
            && r.value.file.tuning.Some?
            && r.value.songTuning == r.value.file.tuning
            && (r.value.centOffset == cents || r.value.centOffset == Some(-1200.0))
            && (!fixLowBass ==> r.value.centOffset == cents && r.value.songTuning == Some(r.value.tuningStrings)))
  {
    match Reconcile(ToneState(NoSlots, file.slots, file.tones), attr.slots, tones, fixMultiTone)
    case Failure(e) => Failure(Tones(e))
    case Success(reconciled) =>
      var st := Cleanup(reconciled, attr.slots);
      var tuning := if file.tuning.Some? then file.tuning.value else StandardTuning;
      var saved := XmlContent(file.version, st.doc, st.entries, Some(tuning));
      if LowBassApplies(fixLowBass, file.version, kind, attr.tuning, cents) && bassFix.Some? then
        Success(Rs2014State(st.arr, tuning, saved.(tuning := bassFix), Some(-1200.0), bassFix))
      else
        Success(Rs2014State(st.arr, tuning, saved, cents, Some(tuning)))
  }

  /** The guitar and bass part of the construction, from the properties v that hold
      the manifest copies and the file's comments: the RS2012 or RS2014 tone
      handling, then tuning detection. */
  function Playable(v: ArrangementProps, attr: Attributes, cents: Option<real>, file: XmlContent,
                    fixMultiTone: bool, fixLowBass: bool,
                    detect: (Option<TuningStrings>, bool) -> TuningDefinition,
                    bassFix: Option<TuningStrings>): (r: Result<Outcome, BuildError>)
    ensures r.Failure? ==> r.error == ExtraneousToneData || r.error.Tones?
    ensures r.Success? ==>
      && r.value.props.kind == v.kind && r.value.props.name == v.name
      && r.value.props.comments == v.comments && r.value.props.scrollSpeed == v.scrollSpeed
      && r.value.props.tuning.Some? && r.value.props.tuningStrings.Some?
  {
    match attr.tones
    case None =>
      if attr.slots.a.Some? || attr.slots.b.Some? || attr.slots.c.Some? || attr.slots.d.Some? then
        Failure(ExtraneousToneData)
      else
        var legacy := v.(tones := v.tones.(base := attr.slots.base));
        Success(Complete(Prepared(legacy, file, cents, file.tuning), attr, detect))
    case Some(tones) =>
      match Rs2014Branch(v.kind, attr, cents, file, tones, fixMultiTone, fixLowBass, bassFix)
      case Failure(e) => Failure(e)
      case Success(b) =>
        var prepared := v.(tones := b.slots, tuningStrings := Some(b.tuningStrings));
        Success(Complete(Prepared(prepared, b.file, b.centOffset, b.songTuning), attr, detect))
  }

  /** The whole construction. cents is the manifest's cent offset on entry,
      file and comments what the XML file holds on entry. */
  function Expected(attr: Attributes, cents: Option<real>, path: string, file: XmlContent,
                    comments: seq<string>, fixMultiTone: bool, fixLowBass: bool,
                    detect: (Option<TuningStrings>, bool) -> TuningDefinition,
                    bassFix: Option<TuningStrings>): (r: Result<Outcome, BuildError>)
    ensures r == Failure(ArrangementTypeMissing) <==> attr.arrangementType.None?
    ensures r == Failure(NoDensitySample) <==> attr.arrangementType.Some? && attr.dynamicVisualDensity == []
    ensures r.Success? ==>
      && r.value.props.songXml == path
      && r.value.props.kind == KindOf(attr.arrangementType.value)
      && r.value.props.name == attr.arrangementName
      && ScrollSpeedOf(attr.dynamicVisualDensity) == Success(r.value.props.scrollSpeed)
      && r.value.props.comments == (if IsPlayable(r.value.props.kind) then Some(comments) else None)
  {
    if attr.arrangementType.None? then Failure(ArrangementTypeMissing)
    else
      var kind := KindOf(attr.arrangementType.value);
      match ScrollSpeedOf(attr.dynamicVisualDensity)
      case Failure(e) => Failure(e)
      case Success(speed) =>
        var v := ManifestCopies(attr, path, kind, speed);
        if !IsPlayable(kind) then Success(Outcome(v, file, cents))
        else Playable(v.(comments := Some(comments)), attr, cents, file, fixMultiTone, fixLowBass, detect, bassFix)
  }

  /** Vocal and show-light arrangements return right after the manifest copies:
      no tone slot, comment list, tuning or tuning strings is set, and the file
      is left as it was. */
  lemma NonPlayableReturnsEarly(attr: Attributes, cents: Option<real>, path: string, file: XmlContent,
                                comments: seq<string>, fix: bool, fixLowBass: bool,
                                detect: (Option<TuningStrings>, bool) -> TuningDefinition,
                                bassFix: Option<TuningStrings>)
    requires attr.arrangementType.Some? && !IsPlayable(KindOf(attr.arrangementType.value))
    requires ScrollSpeedOf(attr.dynamicVisualDensity).Success?
    ensures var r := Expected(attr, cents, path, file, comments, fix, fixLowBass, detect, bassFix);
      && r.Success?
      && r.value.props.tones == NoSlots && r.value.props.comments.None?
      && r.value.props.tuning.None? && r.value.props.tuningStrings.None?
      && r.value.props.tuningPitch == Unset
      && r.value.file == file && r.value.centOffset == cents
  {
  }

  /** An RS2012 manifest (no tone list) for a guitar or bass arrangement throws
      exactly when it names any of the tones A to D; otherwise ToneBase is the
      manifest's base tone, no other slot is set, and the file is not rewritten. */
  lemma LegacyToneBranch(attr: Attributes, cents: Option<real>, path: string, file: XmlContent,
                         comments: seq<string>, fix: bool, fixLowBass: bool,
                         detect: (Option<TuningStrings>, bool) -> TuningDefinition,
                         bassFix: Option<TuningStrings>)
    requires attr.arrangementType.Some? && IsPlayable(KindOf(attr.arrangementType.value))
    requires ScrollSpeedOf(attr.dynamicVisualDensity).Success?
    requires attr.tones.None?
    ensures var r := Expected(attr, cents, path, file, comments, fix, fixLowBass, detect, bassFix);
      && (r == Failure(ExtraneousToneData) <==>
            attr.slots.a.Some? || attr.slots.b.Some? || attr.slots.c.Some? || attr.slots.d.Some?)
      && (r.Success? ==>
            && r.value.props.tones == Slots(attr.slots.base, None, None, None, None)
            && r.value.file == file && r.value.centOffset == cents
            && r.value.props.comments == Some(comments))
  {
  }

  /** A guitar or bass arrangement that is built always ends with its tuning
      name and tuning strings set. */
  lemma PlayableHasTuning(attr: Attributes, cents: Option<real>, path: string, file: XmlContent,
                          comments: seq<string>, fix: bool, fixLowBass: bool,
                          detect: (Option<TuningStrings>, bool) -> TuningDefinition,
                          bassFix: Option<TuningStrings>)
    requires attr.arrangementType.Some? && IsPlayable(KindOf(attr.arrangementType.value))
    requires Expected(attr, cents, path, file, comments, fix, fixLowBass, detect, bassFix).Success?
    ensures var v := Expected(attr, cents, path, file, comments, fix, fixLowBass, detect, bassFix).value.props;
      v.tuning.Some? && v.tuningStrings.Some? && v.kind == KindOf(attr.arrangementType.value)
  {
  }

  /** In the RS2014 branch, a file without a tuning block is saved with the
      standard tuning, and that is the tuning the catalog is asked about,
      whenever the low-bass repair does not apply or fails. */
  lemma StandardTuningDefault(attr: Attributes, cents: Option<real>, path: string, file: XmlContent,
                              comments: seq<string>, fix: bool, fixLowBass: bool,
                              detect: (Option<TuningStrings>, bool) -> TuningDefinition,
                              bassFix: Option<TuningStrings>)
    requires attr.arrangementType.Some? && IsPlayable(KindOf(attr.arrangementType.value))
    requires attr.tones.Some? && file.tuning.None?
    requires !(LowBassApplies(fixLowBass, file.version, KindOf(attr.arrangementType.value), attr.tuning, cents) &&
               bassFix.Some?)
    requires Expected(attr, cents, path, file, comments, fix, fixLowBass, detect, bassFix).Success?
    ensures var r := Expected(attr, cents, path, file, comments, fix, fixLowBass, detect, bassFix).value;
      && r.file.tuning == Some(StandardTuning)
      && r.props.tuningStrings == Some(detect(Some(StandardTuning), KindOf(attr.arrangementType.value).Guitar?).strings)
  {
  }

  /** When the low-bass repair is attempted and succeeds, the manifest's cent
      offset becomes -1200 (a 220 Hz reference), TuningPitch is taken from it,
      and the tuning is reloaded from the rewritten file. When it is not asked
      for, the cent offset is left alone. */
  lemma LowBassPinsReferencePitch(attr: Attributes, cents: Option<real>, path: string, file: XmlContent,
                                  comments: seq<string>, fix: bool, fixLowBass: bool,
                                  detect: (Option<TuningStrings>, bool) -> TuningDefinition,
                                  bassFix: Option<TuningStrings>)
    requires attr.arrangementType.Some?
    requires Expected(attr, cents, path, file, comments, fix, fixLowBass, detect, bassFix).Success?
    ensures var r := Expected(attr, cents, path, file, comments, fix, fixLowBass, detect, bassFix).value;
      && (attr.tones.Some? && bassFix.Some? &&
          LowBassApplies(fixLowBass, file.version, KindOf(attr.arrangementType.value), attr.tuning, cents) ==>
            && r.centOffset == Some(-1200.0) && r.props.tuningPitch == FromCents(-1200.0)
            && r.file.tuning == bassFix
            && r.props.tuningStrings == Some(detect(bassFix, false).strings))
      && (!fixLowBass ==> r.centOffset == cents)
  {
  }
}
