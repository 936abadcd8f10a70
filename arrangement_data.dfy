/** The values an Arrangement holds, the kind mapping (SetArrType) and the
    label the arrangement list shows (ToString). */
module ArrangementData {
  import opened Wrappers
  import opened Text
  import opened SongXml
  import opened Manifest

  /** The ArrangementType enumeration. */
  datatype ArrangementType = Guitar | Bass | Vocal | ShowLight

  /** SetArrType: Bass is Bass, JVocals and Vocals are Vocal, ShowLights is
      ShowLight, and every other name, known or not, is Guitar. */
  function KindOf(name: ArrangementName): (k: ArrangementType)
    ensures k.Bass? <==> name.Bass?
    ensures k.Vocal? <==> name.JVocals? || name.Vocals?
    ensures k.ShowLight? <==> name.ShowLights?
    ensures k.Guitar? <==> name.OtherName?
  {
    if name.Bass? then ArrangementType.Bass
    else if name.JVocals? || name.Vocals? then Vocal
    else if name.ShowLights? then ShowLight
    else Guitar
  }

  /** Guitar and bass arrangements carry tones and a tuning; the others do not. */
  predicate IsPlayable(k: ArrangementType)
  {
    k.Guitar? || k.Bass?
  }

  /** TuningPitch. It is 0 until set, and then the frequency of a cent offset,
      440 * 2^(cents / 1200) Hz, which is kept here as the offset it came from.
      Over the reals that frequency is above 0 and equals 440 exactly when the
      offset is 0; floating-point rounding of the frequency is not modelled. */
  datatype Pitch = Unset | FromCents(cents: real)

  /** The ": A..." part of the label is shown for a pitch above 0 other than 440. */
  predicate ShowsPitch(p: Pitch)
  {
    p.FromCents? && p.cents != 0.0
  }

  /** The parsed binary track data (Sng2014File), opaque here. */
  datatype SngCache = SngCache(data: seq<int>)

  /** One result of the tuning catalog: its display name and canonical offsets. */
  datatype TuningDefinition = TuningDefinition(uiName: string, strings: TuningStrings)

  /** Every property of an Arrangement that this part of the toolkit reads or writes. */
  datatype ArrangementProps = ArrangementProps(
    songFile: string,
    songXml: string,
    properties: ArrangementProperties,
    kind: ArrangementType,
    sort: int,
    name: ArrangementName,
    tuning: Option<string>,
    tuningStrings: Option<TuningStrings>,
    tuningPitch: Pitch,
    capoFret: int,
    scrollSpeed: int,
    pluckedType: int,
    routeMask: int,
    bonusArr: bool,
    metronome: Metronome,
    tones: Slots,
    toneMultiplayer: Option<string>,
    id: string,
    masterId: int,
    comments: Option<seq<string>>,
    sng: Option<SngCache>)

  /** Enum.ToString of an ArrangementType. */
  function KindText(k: ArrangementType): string
  {
    match k
    case Guitar => "Guitar"
    case Bass => "Bass"
    case Vocal => "Vocal"
    case ShowLight => "ShowLight"
  }

  /** Enum.ToString of an ArrangementName. */
  function NameText(n: ArrangementName): string
  {
    match n
    case Bass => "Bass"
    case JVocals => "JVocals"
    case Vocals => "Vocals"
    case ShowLights => "ShowLights"
    case OtherName(text) => text
  }

  /** String.Format prints a null string as nothing. */
  function TextOf(s: Option<string>): string
  {
    if s.Some? then s.value else ""
  }

  /** The tone part of the label: Base, then A unless it repeats Base, then B,
      C and D, each non-empty one after ", ". */
  function ToneDesc(t: Slots): (r: string)
    ensures r == "" <==>
      IsNullOrEmpty(t.base) && (IsNullOrEmpty(t.a) || t.base == t.a) &&
      IsNullOrEmpty(t.b) && IsNullOrEmpty(t.c) && IsNullOrEmpty(t.d)
  {
    var d0 := if !IsNullOrEmpty(t.base) then t.base.value else "";
    var d1 := if !IsNullOrEmpty(t.a) && t.base != t.a then d0 + ", " + t.a.value else d0;
    var d2 := if !IsNullOrEmpty(t.b) then d1 + ", " + t.b.value else d1;
    var d3 := if !IsNullOrEmpty(t.c) then d2 + ", " + t.c.value else d2;
    if !IsNullOrEmpty(t.d) then d3 + ", " + t.d.value else d3
  }

  /** The bracketed part of a playable arrangement's label: tuning name, pitch,
      capo fret, then the tones in parentheses. The rendering of the frequency is
      culture-dependent floating-point formatting and is a parameter: it gets
      the cent offset the pitch came from. */
  function Details(v: ArrangementProps, formatPitch: real -> string): (r: string)
    ensures |r| >= 2 && r[..2] == " [" && r[|r| - 1] == ')'
  {
    var capoInfo := if v.capoFret > 0 then ", Capo Fret " + NatToString(v.capoFret) else "";
    var pitchInfo := if ShowsPitch(v.tuningPitch) then ": A" + formatPitch(v.tuningPitch.cents) else "";
    " [" + TextOf(v.tuning) + pitchInfo + capoInfo + "] (" + ToneDesc(v.tones) + ")"
  }

  /** ToString. A playable arrangement's label starts with its kind. */
  function Label(v: ArrangementProps, formatPitch: real -> string): (r: string)
    ensures IsPlayable(v.kind) ==> KindText(v.kind) <= r
  {
    var metDesc := if v.metronome == Generate then " +Metronome" else "";
    match v.kind
    case Bass => KindText(v.kind) + Details(v, formatPitch) + metDesc
    case Vocal => NameText(v.name)
    case ShowLight => NameText(v.name)
    case Guitar => KindText(v.kind) + " - " + NameText(v.name) + Details(v, formatPitch) + metDesc
  }

  /** An A tone equal to the base tone is not listed a second time. */
  lemma ToneDescSkipsRepeatedA(t: Slots)
    ensures ToneDesc(t.(a := t.base)) == ToneDesc(t.(a := None))
  {
  }

  /** A non-empty base tone is listed first. */
  lemma ToneDescStartsWithBase(t: Slots)
    requires !IsNullOrEmpty(t.base)
    ensures t.base.value <= ToneDesc(t)
  {
  }

  /** Vocal and show-light arrangements are listed by their name alone. */
  lemma LabelOfNonPlayable(v: ArrangementProps, formatPitch: real -> string)
    requires !IsPlayable(v.kind)
    ensures Label(v, formatPitch) == NameText(v.name)
  {
  }

  /** A playable arrangement's label starts with its kind: "Bass [" or
      "Guitar - <name> [". */
  lemma LabelOfPlayable(v: ArrangementProps, formatPitch: real -> string)
    requires IsPlayable(v.kind)
    ensures v.kind.Bass? ==> "Bass [" <= Label(v, formatPitch)
    ensures v.kind.Guitar? ==> "Guitar - " + NameText(v.name) + " [" <= Label(v, formatPitch)
  {
    var head := if v.kind.Bass? then "Bass" else "Guitar - " + NameText(v.name);
    var details := Details(v, formatPitch);
    var rest := details + if v.metronome == Generate then " +Metronome" else "";
    assert Label(v, formatPitch) == head + rest;
    assert rest[..2] == " [";
    PrefixOfConcat(head, rest, 2);
  }

  /** The first |a| + n characters of a + b are a followed by the first n of b. */
  lemma PrefixOfConcat(a: string, b: string, n: nat)
    requires n <= |b|
    ensures a + b[..n] <= a + b
  {
    assert (a + b)[..|a| + n] == a + b[..n];
  }

  /** A playable arrangement's label ends with " +Metronome" exactly when its
      metronome is generated. */
  lemma LabelMetronomeSuffix(v: ArrangementProps, formatPitch: real -> string)
    requires IsPlayable(v.kind)
    ensures EndsWith(Label(v, formatPitch), " +Metronome") <==> v.metronome == Generate
  {
    var head := if v.kind.Bass? then "Bass" else "Guitar - " + NameText(v.name);
    var body := head + Details(v, formatPitch);
    var s := Label(v, formatPitch);
    if v.metronome == Generate {
      assert s == body + " +Metronome";
      assert s[|body|..] == " +Metronome";
    } else {
      assert s == body && s[|s| - 1] == ')';
      assert |s| >= 11 ==> s[|s| - 11..][10] == ')';
    }
  }
}
