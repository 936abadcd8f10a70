/** The Arrangement class: its construction from a manifest and an XML
    arrangement file, its list label and its track cache. */
module Arrangements {
  import opened Wrappers
  import opened Text
  import opened SongXml
  import opened Manifest
  import opened ToneRules
  import opened ArrangementData
  import opened BuildSpec

  /** One entry of the document's tone list, for one manifest tone: its
      placeholder name repaired, then, when it matches the manifest tone
      (ignoring case, equal or a suffix), renamed to it and stamped with the
      tone id. None when the repaired name is null, where ToLower throws. */
  method RenameXmlTone(entry: ToneEntry, m: Slots, name: string, toneId: int) returns (r: Option<ToneEntry>)
    ensures r == RenameEntry(entry, m, name, toneId)
  {
    var n := entry.name;
    // repair the names old toolkits left behind
    if n == Some("ToneA") { n := m.a; }
    if n == Some("ToneB") { n := m.b; }
    if n == Some("ToneC") { n := m.c; }
    if n == Some("ToneD") { n := m.d; }
    if n.None? {
      return None;
    }
    if Lower(n.value) == Lower(name) || EndsWith(Lower(name), Lower(n.value)) {
      return Some(ToneEntry(Some(name), toneId, entry.time));
    }
    return Some(entry.(name := n));
  }

  /** The inner loop of tone reconciliation: every entry of the document's tone
      list is renamed as RenameXmlTone says. False when a null name reaches
      ToLower; the entries before it are then already updated. */
  method RenameXmlTones(tones: array<ToneEntry>, m: Slots, name: string, toneId: int) returns (ok: bool)
    modifies tones
    ensures ok <==> RenameAll(old(tones[..]), m, name, toneId).Some?
    ensures ok ==> tones[..] == RenameAll(old(tones[..]), m, name, toneId).value
  {
    ghost var before := tones[..];
    ghost var done: seq<ToneEntry> := [];
    var i := 0;
    while i < tones.Length
      invariant 0 <= i <= tones.Length && |done| == i
      invariant forall k :: 0 <= k < i ==> RenameEntry(before[k], m, name, toneId) == Some(done[k])
      invariant forall k :: 0 <= k < i ==> tones[k] == done[k]
      invariant forall k :: i <= k < tones.Length ==> tones[k] == before[k]
    {
      var renamed := RenameXmlTone(tones[i], m, name, toneId);
      if renamed.None? {
        return false;
      }
      tones[i] := renamed.value;
      done := done + [renamed.value];
      i := i + 1;
    }
    assert done == tones[..];
    ghost var r := RenameAll(before, m, name, toneId);
    assert r.Some?;
    assert tones[..] == r.value;
    return true;
  }

  /** TuningFrequency.ApplyBassFix is not part of this model. It retunes the low
      string and rewrites the XML file; its outcome is given as a parameter:
      None when it reports failure, otherwise the tuning it leaves in the file. */
  method ApplyBassFix(file: XmlFile, outcome: Option<TuningStrings>) returns (applied: bool)
    modifies file`content
    ensures applied == outcome.Some?
    ensures file.content == if applied then old(file.content).(tuning := outcome) else old(file.content)
  {
    applied := outcome.Some?;
    if applied {
      file.content := file.content.(tuning := outcome);
    }
  }

  class Arrangement {
    /** The arrangement's properties: SongFile, SongXml, ArrangementType, the
        tone slots, TuningStrings, XmlComments, Sng2014 and the rest, one field
        of the record each. */
    var props: ArrangementProps

    /** What tone reconciliation works on: this arrangement's slots and the
        document's slots and tone list. */
    function ToneStateWith(song: Song2014): ToneState
      reads this, song, song.tones
    {
      ToneState(props.tones, song.DocSlots(), song.Content().tones)
    }

    /** A freshly allocated object, before any constructor body has run. */
    constructor Blank()
      ensures props == BlankProps
    {
      props := BlankProps;
    }

    /** The slot tests of one manifest tone: every slot whose manifest name is
        the tone's (ignoring case) is set to it on the arrangement and on the
        document, and the tone id is the one of the last of B, C, D it matches. */
    method AssignMatchingSlots(m: Slots, song: Song2014, j: string) returns (toneId: int)
      requires m.base.Some?
      modifies this`props, song`toneBase, song`toneA, song`toneB, song`toneC, song`toneD
      ensures toneId == ToneId(m, j)
      ensures props == old(props).(tones := AssignSlots(old(props.tones), m, j))
      ensures song.DocSlots() == AssignSlots(old(song.DocSlots()), m, j)
    {
      AssignBaseAndA(m, song, j);
      toneId := AssignSwitchSlots(m, song, j);
    }

    /** The tests against the manifest's Base and A tones. */
    method AssignBaseAndA(m: Slots, song: Song2014, j: string)
      requires m.base.Some?
      modifies this`props, song`toneBase, song`toneA
      ensures props == old(props).(tones := old(props.tones).(base := Assign(old(props.tones.base), m.base, j),
                                                              a := Assign(old(props.tones.a), m.a, j)))
      ensures song.toneBase == Assign(old(song.toneBase), m.base, j)
      ensures song.toneA == Assign(old(song.toneA), m.a, j)
    {
      if Lower(j) == Lower(m.base.value) {
        props := props.(tones := props.tones.(base := m.base));
        song.toneBase := m.base;
      }
      if m.a.Some? && Lower(j) == Lower(m.a.value) {
        props := props.(tones := props.tones.(a := m.a));
        song.toneA := m.a;
      }
    }

    /** The tests against the manifest's B, C and D tones, the ones that switch
        tones during play: each match also sets the tone id. */
    method AssignSwitchSlots(m: Slots, song: Song2014, j: string) returns (toneId: int)
      modifies this`props, song`toneB, song`toneC, song`toneD
      ensures toneId == ToneId(m, j)
      ensures props == old(props).(tones := old(props.tones).(b := Assign(old(props.tones.b), m.b, j),
                                                              c := Assign(old(props.tones.c), m.c, j),
                                                              d := Assign(old(props.tones.d), m.d, j)))
      ensures song.toneB == Assign(old(song.toneB), m.b, j)
      ensures song.toneC == Assign(old(song.toneC), m.c, j)
      ensures song.toneD == Assign(old(song.toneD), m.d, j)
    {
      toneId := 0;
      if m.b.Some? && Lower(j) == Lower(m.b.value) {
        props := props.(tones := props.tones.(b := m.b));
        song.toneB := m.b;
        toneId := 1;
      }
      if m.c.Some? && Lower(j) == Lower(m.c.value) {
        props := props.(tones := props.tones.(c := m.c));
        song.toneC := m.c;
        toneId := 2;
      }
      if m.d.Some? && Lower(j) == Lower(m.d.value) {
        props := props.(tones := props.tones.(d := m.d));
        song.toneD := m.d;
        toneId := 3;
      }
    }

    /** One iteration of the outer loop of tone reconciliation: one element of
        the manifest's tone list. */
    method ReconcileTone(m: Slots, song: Song2014, jt: JsonTone, fixMultiTone: bool)
      returns (err: Option<ToneError>)
      modifies this`props, song`toneBase, song`toneA, song`toneB, song`toneC, song`toneD
      modifies song`tones, song.tones
      ensures song.tones == null || song.tones == old(song.tones) || fresh(song.tones)
      ensures props == old(props).(tones := props.tones)
      ensures var r := Step(old(ToneStateWith(song)), m, jt, fixMultiTone);
        && (r.Failure? ==> err == Some(r.error))
        && (r.Success? ==> err.None? && ToneStateWith(song) == r.value)
    {
      if jt.NullTone? {
        return None;
      }
      if jt.name.None? || m.base.None? {
        return Some(NullToneName);
      }
      var j := jt.name.value;
      var toneId := AssignMatchingSlots(m, song, j);
      ghost var slots, docSlots := props.tones, song.DocSlots();
      ghost var entries := old(ToneStateWith(song)).entries;
      assert song.tones == old(song.tones);
      assert entries == (if song.tones == null then None else Some(song.tones[..]));

      // update the document's tone names and ids
      if song.tones != null {
        var ok := RenameXmlTones(song.tones, m, j, toneId);
        if !ok {
          return Some(NullToneName);
        }
        assert ToneStateWith(song) == ToneState(slots, docSlots, RenameAll(entries.value, m, j, toneId));
      }
      // the document has no tone list, but the manifest switches tones
      if song.tones == null && toneId > 0 {
        if fixMultiTone {
          // convert the corrupt multitone to a single tone
          song.tones := new ToneEntry[0];
          assert song.tones[..] == [];
        } else {
          return Some(MultitoneDataMissing);
        }
      }
      assert Step(old(ToneStateWith(song)), m, jt, fixMultiTone) == Success(ToneStateWith(song));
      return None;
    }

    /** The outer loop of tone reconciliation, over the manifest's tone list. */
    method ReconcileTones(m: Slots, song: Song2014, tones: seq<JsonTone>, fixMultiTone: bool)
      returns (err: Option<ToneError>)
      modifies this`props, song`toneBase, song`toneA, song`toneB, song`toneC, song`toneD
      modifies song`tones, song.tones
      ensures props == old(props).(tones := props.tones)
      ensures var r := Reconcile(old(ToneStateWith(song)), m, tones, fixMultiTone);
        && (r.Failure? ==> err == Some(r.error))
        && (r.Success? ==> err.None? && ToneStateWith(song) == r.value)
    {
      ghost var init := ToneStateWith(song);
      var i := 0;
      while i < |tones|
        invariant 0 <= i <= |tones|
        invariant song.tones == null || song.tones == old(song.tones) || fresh(song.tones)
        invariant props == old(props).(tones := props.tones)
        invariant Reconcile(init, m, tones[..i], fixMultiTone) == Success(ToneStateWith(song))
      {
        ghost var before := ToneStateWith(song);
        var e := ReconcileTone(m, song, tones[i], fixMultiTone);
        assert tones[..i + 1][..i] == tones[..i];
        assert Reconcile(init, m, tones[..i + 1], fixMultiTone) == Step(before, m, tones[i], fixMultiTone);
        if e.Some? {
          FailureSticks(init, m, tones, fixMultiTone, i + 1);
          return e;
        }
        i := i + 1;
      }
      assert tones[..i] == tones;
      return None;
    }

    /** The single-tone cleanup: a document left without tone entries but with
        a non-empty ToneA is collapsed to the manifest's base tone. */
    method CleanupSingleTone(m: Slots, song: Song2014)
      modifies this`props, song`toneBase, song`toneA, song`toneB, song`toneC
      ensures props == old(props).(tones := props.tones)
      ensures ToneStateWith(song) == Cleanup(old(ToneStateWith(song)), m)
    {
      // convert a corrupt multitone to a single tone, or repair an old single tone
      if (song.tones == null || song.tones.Length == 0) && !IsNullOrEmpty(song.toneA) {
        song.toneA, song.toneB, song.toneC := Some(""), Some(""), Some("");
        song.toneBase := m.base;
        props := props.(tones := props.tones.(base := m.base, a := Some(""), b := Some(""), c := Some("")));
      }
    }

    /** The standard-tuning default, then saving the document's typed content
        and writing the comments read earlier back into the file. */
    method SaveWithTuning(song: Song2014, file: XmlFile)
      requires props.comments.Some?
      modifies song`tuning, this`props, file
      ensures song.tuning == Some(if old(song.tuning).Some? then old(song.tuning).value else StandardTuning)
      ensures props == old(props).(tuningStrings := song.tuning)
      ensures file.content == song.Content() && file.comments == props.comments.value
    {
      // standard tuning when the file has none
      if song.tuning.None? {
        song.tuning := Some(StandardTuning);
      }
      props := props.(tuningStrings := song.tuning);
      // write the typed content, then the comments back
      song.SaveTo(file);
      WriteXmlComments(file, props.comments.value);
    }

    /** The quick low-bass check and repair of an RS2014 bass arrangement. */
    method RepairLowBass(attr: Attributes, song: Song2014, file: XmlFile, fixLowBass: bool,
                         bassFix: Option<TuningStrings>)
      modifies song`tuning, file`content, attr`centOffset
      ensures if LowBassApplies(fixLowBass, song.version, props.kind, attr.tuning, old(attr.centOffset)) &&
                 bassFix.Some?
              then attr.centOffset == Some(-1200.0) && song.tuning == bassFix &&
                   file.content == old(file.content).(tuning := bassFix)
              else attr.centOffset == old(attr.centOffset) && song.tuning == old(song.tuning) &&
                   file.content == old(file.content)
    {
      if fixLowBass && song.version == "7" && props.kind == ArrangementType.Bass {
        if attr.tuning.string0 < -4 && attr.centOffset != Some(-1200.0) {
          var applied := ApplyBassFix(file, bassFix);
          if applied {
            attr.centOffset := Some(-1200.0);  // force 220 Hz
            var reloaded := new Song2014.LoadFromFile(file);
            song.tuning := reloaded.tuning;
          }
        }
      }
    }

    /** The RS2014 part of the constructor, up to tuning detection: tone
        reconciliation, single-tone cleanup, standard-tuning default, saving the
        document and its comments, and the optional low-bass repair. */
    method ReconcileAndSave(attr: Attributes, song: Song2014, file: XmlFile, tones: seq<JsonTone>,
                            fixMultiTone: bool, fixLowBass: bool, bassFix: Option<TuningStrings>)
      returns (err: Option<BuildError>)
      requires song.Content() == file.content && props.comments == Some(file.comments)
      requires props.tones == NoSlots
      modifies this`props, song, song.tones, file, attr`centOffset
      ensures var r := Rs2014Branch(props.kind, attr, old(attr.centOffset), old(file.content), tones,
                                    fixMultiTone, fixLowBass, bassFix);
        && (r.Failure? ==> err == Some(r.error) && file.content == old(file.content) &&
                           attr.centOffset == old(attr.centOffset))
        && (r.Success? ==> err.None? &&
                           props == old(props).(tones := r.value.slots, tuningStrings := Some(r.value.tuningStrings)) &&
                           file.content == r.value.file && attr.centOffset == r.value.centOffset &&
                           song.tuning == r.value.songTuning)
      ensures file.comments == old(file.comments)
    {
      ghost var f0, c0 := file.content, attr.centOffset;
      var e := ReconcileTones(attr.slots, song, tones, fixMultiTone);
      if e.Some? {
        return Some(Tones(e.value));
      }
      ghost var reconciled := ToneStateWith(song);

      CleanupSingleTone(attr.slots, song);
      ghost var st := Cleanup(reconciled, attr.slots);

      SaveWithTuning(song, file);
      ghost var tuning := if f0.tuning.Some? then f0.tuning.value else StandardTuning;
      assert file.content == XmlContent(f0.version, st.doc, st.entries, Some(tuning));

      RepairLowBass(attr, song, file, fixLowBass, bassFix);
      return None;
    }

    /** DetectTuning: the tuning catalog's best match for the document's tuning. */
    method DetectTuning(song: Song2014, detect: (Option<TuningStrings>, bool) -> TuningDefinition)
      modifies this`props
      ensures var t := detect(song.tuning, props.kind.Guitar?);
        props == old(props).(tuning := Some(t.uiName), tuningStrings := Some(t.strings))
    {
      var t := detect(song.tuning, props.kind.Guitar?);
      props := props.(tuning := Some(t.uiName), tuningStrings := Some(t.strings));
    }

    /** The manifest copies: arrangement type, properties, sort, name, scroll
        speed (the last density sample times ten, rounded to an Int32), plucked
        type, route mask, bonus flag, metronome, multiplayer tone, persistent id
        and master id. */
    method CopyManifest(attr: Attributes) returns (err: Option<BuildError>)
      requires attr.arrangementType.Some? && props == Started(props.songXml)
      modifies this`props
      ensures match ScrollSpeedOf(attr.dynamicVisualDensity)
        case Failure(e) => err == Some(e)
        case Success(speed) =>
          err.None? && props == ManifestCopies(attr, old(props.songXml), KindOf(attr.arrangementType.value), speed)
    {
      props := props.(kind := KindOf(attr.arrangementType.value), properties := attr.properties,
                      sort := attr.arrangementSort, name := attr.arrangementName);
      var speed := ScrollSpeedOf(attr.dynamicVisualDensity);
      if speed.Failure? {
        return Some(speed.error);
      }
      props := props.(scrollSpeed := speed.value, pluckedType := attr.properties.bassPick,
                      routeMask := attr.properties.routeMask, bonusArr := attr.properties.bonusArr == 1,
                      metronome := attr.properties.metronome, toneMultiplayer := attr.toneMultiplayer,
                      id := attr.persistentId, masterId := attr.masterId);
      return None;
    }

    /** The guitar and bass part of the constructor: the RS2012 tone check or the
        RS2014 reconciliation and save, then the final tuning. */
    method FillPlayable(attr: Attributes, song: Song2014, file: XmlFile, fixMultiTone: bool, fixLowBass: bool,
                        detect: (Option<TuningStrings>, bool) -> TuningDefinition,
                        bassFix: Option<TuningStrings>) returns (err: Option<BuildError>)
      requires song.Content() == file.content && props.comments == Some(file.comments)
      requires props.tones == NoSlots
      modifies this`props, song, song.tones, file, attr`centOffset
      ensures var r := Playable(old(props), attr, old(attr.centOffset), old(file.content),
                                fixMultiTone, fixLowBass, detect, bassFix);
        && (r.Failure? ==> err == Some(r.error) && file.content == old(file.content) &&
                           attr.centOffset == old(attr.centOffset))
        && (r.Success? ==> err.None? && props == r.value.props && file.content == r.value.file &&
                           attr.centOffset == r.value.centOffset)
      ensures file.comments == old(file.comments)
    {
      if attr.tones.None? {
        // RS2012 content
        props := props.(tones := props.tones.(base := attr.slots.base));
        if attr.slots.a.Some? || attr.slots.b.Some? || attr.slots.c.Some? || attr.slots.d.Some? {
          return Some(ExtraneousToneData);
        }
      } else {
        err := ReconcileAndSave(attr, song, file, attr.tones.value, fixMultiTone, fixLowBass, bassFix);
        if err.Some? {
          return;
        }
      }

      // set the final tuning
      DetectTuning(song, detect);
      props := props.(capoFret := attr.capoFret);
      if attr.centOffset.Some? {
        props := props.(tuningPitch := FromCents(attr.centOffset.value));
      }
      return None;
    }

    /** The body of the constructor Arrangement(attr, xmlSongFile, fixMultiTone,
        fixLowBass), run on a freshly allocated object. The file stands for the
        one at path; detect is the tuning catalog and bassFix the outcome of the
        low-bass repair. On an error nothing is written to the file. */
    method Fill(attr: Attributes, path: string, file: XmlFile, fixMultiTone: bool, fixLowBass: bool,
                detect: (Option<TuningStrings>, bool) -> TuningDefinition,
                bassFix: Option<TuningStrings>) returns (err: Option<BuildError>)
      requires props == BlankProps
      modifies this`props, file, attr`centOffset
      ensures var r := Expected(attr, old(attr.centOffset), path, old(file.content), old(file.comments),
                                fixMultiTone, fixLowBass, detect, bassFix);
        && (r.Failure? ==> err == Some(r.error) && file.content == old(file.content) &&
                           attr.centOffset == old(attr.centOffset))
        && (r.Success? ==> err.None? && props == r.value.props && file.content == r.value.file &&
                           attr.centOffset == r.value.centOffset)
      ensures file.comments == old(file.comments)
    {
      var song := new Song2014.LoadFromFile(file);
      props := props.(songFile := "", songXml := path);

      if attr.arrangementType.None? {
        return Some(ArrangementTypeMissing);
      }
      err := CopyManifest(attr);
      if err.Some? {
        return;
      }

      // vocals and show lights carry no tones and no tuning
      if !IsPlayable(props.kind) {
        return None;
      }

      props := props.(comments := Some(ReadXmlComments(file)));
      err := FillPlayable(attr, song, file, fixMultiTone, fixLowBass, detect, bassFix);
    }

    /** new Arrangement(attr, xmlSongFile, fixMultiTone, fixLowBass): a new
        arrangement, or the error the constructor throws. */
    static method Build(attr: Attributes, path: string, file: XmlFile, fixMultiTone: bool, fixLowBass: bool,
                        detect: (Option<TuningStrings>, bool) -> TuningDefinition,
                        bassFix: Option<TuningStrings>) returns (r: Result<Arrangement, BuildError>)
      modifies file, attr`centOffset
      ensures var e := Expected(attr, old(attr.centOffset), path, old(file.content), old(file.comments),
                                fixMultiTone, fixLowBass, detect, bassFix);
        && (e.Failure? ==> r == Failure(e.error) && file.content == old(file.content))
        && (e.Success? ==> r.Success? && fresh(r.value) && r.value.props == e.value.props &&
                           file.content == e.value.file && attr.centOffset == e.value.centOffset)
      ensures file.comments == old(file.comments)
    {
      var a := new Arrangement.Blank();
      var err := a.Fill(attr, path, file, fixMultiTone, fixLowBass, detect, bassFix);
      if err.Some? {
        return Failure(err.value);
      }
      return Success(a);
    }

    /** ToString: the label the arrangement list shows. Vocal and show-light
        arrangements show their name; the others end with " +Metronome"
        exactly when the metronome is generated. */
    function ToString(formatPitch: real -> string): (r: string)
      reads this
      ensures !IsPlayable(props.kind) ==> r == NameText(props.name)
      ensures IsPlayable(props.kind) ==> (EndsWith(r, " +Metronome") <==> props.metronome == Generate)
    {
      if IsPlayable(props.kind) then
        LabelMetronomeSuffix(props, formatPitch);
        Label(props, formatPitch)
      else
        LabelOfNonPlayable(props, formatPitch);
        Label(props, formatPitch)
    }

    /** ClearCache: drops the parsed track data and nothing else. */
    method ClearCache()
      modifies this`props
      ensures props == old(props).(sng := None)
    {
      props := props.(sng := None);
    }
  }
}
