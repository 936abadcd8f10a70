/** The tone reconciliation of an RS2014 arrangement, as functions: what one
    manifest tone does to the arrangement's slots, the document's slots and the
    document's tone list, and what the whole manifest tone list does. */
module ToneRules {
  import opened Wrappers
  import opened Text
  import opened SongXml
  import opened Manifest

  /** The ways tone reconciliation can throw. */
  datatype ToneError =
    | NullToneName          // ToLower on a null tone name (a NullReferenceException)
    | MultitoneDataMissing  // the document has no tone list but the manifest switches tones

  /** The state reconciliation works on: the arrangement's tone slots, the
      document's tone slots and the document's tone list. */
  datatype ToneState = ToneState(arr: Slots, doc: Slots, entries: Option<seq<ToneEntry>>)

  /** A manifest slot names the tone: it is set and equal to it ignoring case. */
  predicate SameTone(slot: Option<string>, name: string)
  {
    slot.Some? && Lower(name) == Lower(slot.value)
  }

  /** The tone id a manifest tone gets: tested against B, C and D in that order,
      each match overriding the previous one; Base and A leave it at 0. */
  function ToneId(m: Slots, name: string): (id: int)
    ensures 0 <= id <= 3
    ensures id == 3 <==> SameTone(m.d, name)
    ensures id == 2 <==> SameTone(m.c, name) && !SameTone(m.d, name)
    ensures id == 1 <==> SameTone(m.b, name) && !SameTone(m.c, name) && !SameTone(m.d, name)
    ensures id == 0 <==> !SameTone(m.b, name) && !SameTone(m.c, name) && !SameTone(m.d, name)
  {
    var afterB := if SameTone(m.b, name) then 1 else 0;
    var afterC := if SameTone(m.c, name) then 2 else afterB;
    if SameTone(m.d, name) then 3 else afterC
  }

  /** A slot takes the manifest's name when that name is the tone's, and keeps
      its value otherwise. */
  function Assign(current: Option<string>, manifest: Option<string>, name: string): Option<string>
  {
    if SameTone(manifest, name) then manifest else current
  }

  /** Every slot that names the tone takes the manifest's name. */
  function AssignSlots(s: Slots, m: Slots, name: string): Slots
  {
    Slots(Assign(s.base, m.base, name), Assign(s.a, m.a, name), Assign(s.b, m.b, name),
          Assign(s.c, m.c, name), Assign(s.d, m.d, name))
  }

  /** A tone-list name left behind by old toolkits: "ToneA" to "ToneD". */
  predicate IsPlaceholder(name: Option<string>)
  {
    name == Some("ToneA") || name == Some("ToneB") || name == Some("ToneC") || name == Some("ToneD")
  }

  /** The placeholder repair, applied in the order A, B, C, D, each test seeing
      the result of the previous one. */
  function RenamePlaceholder(name: Option<string>, m: Slots): (r: Option<string>)
    ensures !IsPlaceholder(name) ==> r == name
    ensures r == name || r == m.a || r == m.b || r == m.c || r == m.d
    ensures name == Some("ToneA") && !IsPlaceholder(m.a) ==> r == m.a
    ensures name == Some("ToneB") && !IsPlaceholder(m.b) ==> r == m.b
    ensures name == Some("ToneC") && !IsPlaceholder(m.c) ==> r == m.c
    ensures name == Some("ToneD") ==> r == m.d
  {
    var n1 := if name == Some("ToneA") then m.a else name;
    var n2 := if n1 == Some("ToneB") then m.b else n1;
    var n3 := if n2 == Some("ToneC") then m.c else n2;
    if n3 == Some("ToneD") then m.d else n3
  }

  /** A tone-list name matches a manifest tone when, ignoring case, it equals the
      manifest name or is a suffix of it. */
  predicate NameMatches(entryName: string, name: string)
  {
    Lower(entryName) == Lower(name) || EndsWith(Lower(name), Lower(entryName))
  }

  /** What one tone-list entry becomes for one manifest tone: None when its
      (repaired) name is null, which makes ToLower throw. */
  function RenameEntry(e: ToneEntry, m: Slots, name: string, id: int): (r: Option<ToneEntry>)
    ensures r.None? <==> RenamePlaceholder(e.name, m).None?
    ensures r.Some? ==> r.value.time == e.time
    ensures r.Some? && NameMatches(RenamePlaceholder(e.name, m).value, name) ==>
              r.value.name == Some(name) && r.value.id == id
    ensures r.Some? && !NameMatches(RenamePlaceholder(e.name, m).value, name) ==>
              r.value.name == RenamePlaceholder(e.name, m) && r.value.id == e.id
  {
    var n := RenamePlaceholder(e.name, m);
    if n.None? then None
    else if NameMatches(n.value, name) then Some(ToneEntry(Some(name), id, e.time))
    else Some(e.(name := n))
  }

  /** The inner loop over the tone list: every entry renamed, or None when one
      of them throws. */
  function RenameAll(es: seq<ToneEntry>, m: Slots, name: string, id: int): (r: Option<seq<ToneEntry>>)
    ensures r.Some? <==> forall i :: 0 <= i < |es| ==> RenameEntry(es[i], m, name, id).Some?
    ensures r.Some? ==> |r.value| == |es|
    ensures r.Some? ==> forall i :: 0 <= i < |es| ==> Some(r.value[i]) == RenameEntry(es[i], m, name, id)
  {
    if es == [] then Some([])
    else
      match RenameEntry(es[0], m, name, id)
      case None => None
      case Some(e) =>
        match RenameAll(es[1..], m, name, id)
        case None => None
        case Some(rest) => Some([e] + rest)
  }

  /** What one element of the manifest tone list does (one iteration of the
      outer loop). */
  function Step(st: ToneState, m: Slots, jt: JsonTone, fixMultiTone: bool): (r: Result<ToneState, ToneError>)
    ensures r.Failure? ==> jt.JsonTone?
    ensures r.Success? && st.entries.Some? ==>
      r.value.entries.Some? && |r.value.entries.value| == |st.entries.value|
    ensures r.Success? && st.entries.None? ==> r.value.entries == None || r.value.entries == Some([])
  {
    match jt
    case NullTone => Success(st)
    case JsonTone(name) =>
      if name.None? || m.base.None? then Failure(NullToneName)
      else
        var j := name.value;
        var id := ToneId(m, j);
        var arr := AssignSlots(st.arr, m, j);
        var doc := AssignSlots(st.doc, m, j);
        match st.entries
        case Some(es) =>
          (match RenameAll(es, m, j, id)
           case None => Failure(NullToneName)
           case Some(es') => Success(ToneState(arr, doc, Some(es'))))
        case None =>
          if id > 0 then
            if fixMultiTone then Success(ToneState(arr, doc, Some([])))
            else Failure(MultitoneDataMissing)
          else Success(ToneState(arr, doc, None))
  }

  /** The whole outer loop: the steps for tones[0], tones[1], ... in order,
      stopping at the first that throws. */
  function Reconcile(st: ToneState, m: Slots, tones: seq<JsonTone>, fixMultiTone: bool): (r: Result<ToneState, ToneError>)
    ensures r.Success? && st.entries.Some? ==>
      r.value.entries.Some? && |r.value.entries.value| == |st.entries.value|
    ensures r.Success? && st.entries.None? ==> r.value.entries == None || r.value.entries == Some([])
  {
    if tones == [] then Success(st)
    else
      match Reconcile(st, m, tones[..|tones| - 1], fixMultiTone)
      case Failure(e) => Failure(e)
      case Success(s) => Step(s, m, tones[|tones| - 1], fixMultiTone)
  }

  /** A manifest tone list of null elements only changes nothing. */
  lemma {:induction false} NullTonesChangeNothing(st: ToneState, m: Slots, tones: seq<JsonTone>, fix: bool)
    requires forall i :: 0 <= i < |tones| ==> tones[i].NullTone?
    ensures Reconcile(st, m, tones, fix) == Success(st)
  {
    if tones != [] {
      NullTonesChangeNothing(st, m, tones[..|tones| - 1], fix);
    }
  }

  /** The single-tone cleanup after the loop: a document left without tone
      entries but with a non-empty ToneA is collapsed to its base tone. */
  function Cleanup(st: ToneState, m: Slots): (r: ToneState)
    ensures r.entries == st.entries
    ensures r.arr.d == st.arr.d && r.doc.d == st.doc.d
    ensures r != st ==> (st.entries.None? || st.entries.value == []) && !IsNullOrEmpty(st.doc.a)
  {
    if (st.entries.None? || st.entries.value == []) && !IsNullOrEmpty(st.doc.a) then
      ToneState(Slots(m.base, Some(""), Some(""), Some(""), st.arr.d),
                Slots(m.base, Some(""), Some(""), Some(""), st.doc.d),
                st.entries)
    else st
  }

  /** Once a prefix of the tone list throws, the whole list throws the same error. */
  lemma {:induction false} FailureSticks(st: ToneState, m: Slots, tones: seq<JsonTone>, fix: bool, k: nat)
    requires k <= |tones|
    requires Reconcile(st, m, tones[..k], fix).Failure?
    ensures Reconcile(st, m, tones, fix) == Reconcile(st, m, tones[..k], fix)
    decreases |tones| - k
  {
    if k == |tones| {
      assert tones[..k] == tones;
    } else {
      assert tones[..k + 1][..k] == tones[..k];
      FailureSticks(st, m, tones, fix, k + 1);
    }
  }

  /** A matching slot is written with the same manifest name on the arrangement
      and on the document; a slot that does not match keeps its value. */
  lemma StepWritesBothSides(st: ToneState, m: Slots, name: string, fix: bool)
    requires m.base.Some?
    requires Step(st, m, JsonTone(Some(name)), fix).Success?
    ensures var s := Step(st, m, JsonTone(Some(name)), fix).value;
      && (SameTone(m.base, name) ==> s.arr.base == s.doc.base == m.base)
      && (SameTone(m.a, name) ==> s.arr.a == s.doc.a == m.a)
      && (SameTone(m.b, name) ==> s.arr.b == s.doc.b == m.b)
      && (SameTone(m.c, name) ==> s.arr.c == s.doc.c == m.c)
      && (SameTone(m.d, name) ==> s.arr.d == s.doc.d == m.d)
      && (!SameTone(m.base, name) ==> s.arr.base == st.arr.base && s.doc.base == st.doc.base)
      && (!SameTone(m.a, name) ==> s.arr.a == st.arr.a && s.doc.a == st.doc.a)
      && (!SameTone(m.b, name) ==> s.arr.b == st.arr.b && s.doc.b == st.doc.b)
      && (!SameTone(m.c, name) ==> s.arr.c == st.arr.c && s.doc.c == st.doc.c)
      && (!SameTone(m.d, name) ==> s.arr.d == st.arr.d && s.doc.d == st.doc.d)
  {
  }

  /** A manifest tone whose id is above 0 against a document with no tone list:
      with fixMultiTone the list becomes empty, without it the build throws. */
  lemma MissingMultitone(st: ToneState, m: Slots, name: string, fix: bool)
    requires m.base.Some? && st.entries.None? && ToneId(m, name) > 0
    ensures fix ==> Step(st, m, JsonTone(Some(name)), fix).Success? &&
                    Step(st, m, JsonTone(Some(name)), fix).value.entries == Some([])
    ensures !fix ==> Step(st, m, JsonTone(Some(name)), fix) == Failure(MultitoneDataMissing)
  {
  }

  /** Against an existing tone list, one manifest tone renames the list with
      RenameAll and the tone's id, and throws exactly when that renaming does. */
  lemma StepRenamesExistingList(st: ToneState, m: Slots, name: string, fix: bool)
    requires m.base.Some? && st.entries.Some?
    ensures var r := Step(st, m, JsonTone(Some(name)), fix);
      var renamed := RenameAll(st.entries.value, m, name, ToneId(m, name));
      && (r.Failure? <==> renamed.None?)
      && (r.Success? ==> r.value.entries == renamed)
  {
  }

  /** A manifest tone with a null name, or a manifest with a null base tone,
      makes ToLower throw. */
  lemma StepNullThrows(st: ToneState, m: Slots, name: Option<string>, fix: bool)
    requires name.None? || m.base.None?
    ensures Step(st, m, JsonTone(name), fix) == Failure(NullToneName)
  {
  }

  /** Null elements of the manifest tone list are skipped. */
  lemma NullToneSkipped(st: ToneState, m: Slots, fix: bool)
    ensures Step(st, m, NullTone, fix) == Success(st)
  {
  }

  /** Only entries whose (repaired) name matches are renamed and stamped: after
      the inner loop, every entry either carries the manifest name and the tone
      id, or kept its id and has at most had its placeholder repaired. Entry
      times never change. */
  lemma {:induction false} RenameAllOnlyTouchesMatches(es: seq<ToneEntry>, m: Slots, name: string, id: int)
    requires RenameAll(es, m, name, id).Some?
    ensures var r := RenameAll(es, m, name, id).value;
      forall i :: 0 <= i < |es| ==>
        && r[i].time == es[i].time
        && (r[i] == ToneEntry(Some(name), id, es[i].time) ||
            (r[i].id == es[i].id && r[i].name == RenamePlaceholder(es[i].name, m)))
  {
    var r := RenameAll(es, m, name, id).value;
    forall i | 0 <= i < |es|
      ensures r[i].time == es[i].time
      ensures r[i] == ToneEntry(Some(name), id, es[i].time) ||
              (r[i].id == es[i].id && r[i].name == RenamePlaceholder(es[i].name, m))
    {
      assert Some(r[i]) == RenameEntry(es[i], m, name, id);
    }
  }

  /** The legacy placeholder repair: an entry named "ToneB" (say) is renamed to
      the manifest's Tone_B and, being the tone, stamped with Tone_B's id. This
      holds when the manifest's slot names are not themselves placeholders. */
  lemma PlaceholderRenamedToManifestName(e: ToneEntry, m: Slots)
    requires e.name == Some("ToneB") && m.b.Some? && !IsPlaceholder(m.b)
    ensures RenamePlaceholder(e.name, m) == m.b
    ensures RenameEntry(e, m, m.b.value, ToneId(m, m.b.value)) ==
              Some(ToneEntry(m.b, ToneId(m, m.b.value), e.time))
  {
    EndsWithSelfAndEmpty(Lower(m.b.value));
  }

  /** The cleanup clears A, B and C on both sides and resets Base to the
      manifest's base tone. It is idempotent. */
  lemma CleanupEffect(st: ToneState, m: Slots)
    ensures (st.entries.None? || st.entries.value == []) && !IsNullOrEmpty(st.doc.a) ==>
      && Cleanup(st, m).arr == Slots(m.base, Some(""), Some(""), Some(""), st.arr.d)
      && Cleanup(st, m).doc == Slots(m.base, Some(""), Some(""), Some(""), st.doc.d)
    ensures Cleanup(Cleanup(st, m), m) == Cleanup(st, m)
  {
  }

  /** Reconciling again against the document a first build saved need not give
      the same slots. With a manifest of base "Base" and B "Beta", tone list
      [Base, Beta], a document with no tone list and ToneA "OldA", and
      fixMultiTone set: the first build collapses to a single tone and saves
      ToneA as "", so the second build's cleanup does not fire and B is set to
      "Beta" again on both sides. */
  lemma RebuildNotIdempotent()
    ensures var m := Slots(Some("Base"), None, Some("Beta"), None, None);
      var tones := [JsonTone(Some("Base")), JsonTone(Some("Beta"))];
      var doc := Slots(Some("Base"), Some("OldA"), None, None, None);
      var first := Reconcile(ToneState(NoSlots, doc, None), m, tones, true);
      && first.Success?
      && var saved := Cleanup(first.value, m);
      var second := Reconcile(ToneState(NoSlots, saved.doc, saved.entries), m, tones, true);
      && second.Success?
      && saved.arr.b == Some("") && saved.doc.b == Some("")
      && Cleanup(second.value, m).arr.b == Some("Beta")
      && Cleanup(second.value, m).doc.b == Some("Beta")
  {
    var m := Slots(Some("Base"), None, Some("Beta"), None, None);
    var tones := [JsonTone(Some("Base")), JsonTone(Some("Beta"))];
    assert Lower("Beta") != Lower("Base") by {
      assert Lower("Beta")[1] == 'e' && Lower("Base")[1] == 'a';
    }
    assert ToneId(m, "Base") == 0 && ToneId(m, "Beta") == 1;
    assert tones[..1] == [JsonTone(Some("Base"))] && tones[..1][..0] == [];
  }
}
