/** The manifest attributes record (Attributes2014) an arrangement is built from. */
module Manifest {
  import opened Wrappers
  import opened SongXml

  /** The arrangement names the kind mapping tells apart; every other member of
      the ArrangementName enumeration (Lead, Rhythm, Combo, ...) is carried by
      the name it prints as. OtherName stands only for those other members: it
      never carries "Bass", "JVocals", "Vocals" or "ShowLights", which have
      constructors of their own. */
  datatype ArrangementName = Bass | JVocals | Vocals | ShowLights | OtherName(text: string)

  /** The Metronome enumeration, of which only Generate matters here. */
  datatype Metronome = Generate | OtherMetronome(code: int)

  /** The manifest's arrangement-properties block. */
  datatype ArrangementProperties = ArrangementProperties(
    bassPick: int, routeMask: int, bonusArr: int, metronome: Metronome)

  /** One element of the manifest's tone list: a null element, or a tone whose
      name may itself be null. */
  datatype JsonTone = NullTone | JsonTone(name: Option<string>)

  /** Attributes2014. Everything is read only, except the cent offset, which the
      low-bass repair overwrites in the caller's record. */
  class Attributes {
    const arrangementType: Option<ArrangementName>
    const arrangementName: ArrangementName
    const properties: ArrangementProperties
    const arrangementSort: int
    const dynamicVisualDensity: seq<real>
    const persistentId: string
    const masterId: int
    const tones: Option<seq<JsonTone>>
    /** Tone_Base and Tone_A to Tone_D. */
    const slots: Slots
    const toneMultiplayer: Option<string>
    const tuning: TuningStrings
    const capoFret: int
    var centOffset: Option<real>

    constructor (arrangementType: Option<ArrangementName>, arrangementName: ArrangementName,
                 properties: ArrangementProperties, arrangementSort: int,
                 dynamicVisualDensity: seq<real>, persistentId: string, masterId: int,
                 tones: Option<seq<JsonTone>>, slots: Slots, toneMultiplayer: Option<string>,
                 tuning: TuningStrings, capoFret: int, centOffset: Option<real>)
      ensures this.arrangementType == arrangementType && this.arrangementName == arrangementName
      ensures this.properties == properties && this.arrangementSort == arrangementSort
      ensures this.dynamicVisualDensity == dynamicVisualDensity
      ensures this.persistentId == persistentId && this.masterId == masterId
      ensures this.tones == tones && this.slots == slots && this.toneMultiplayer == toneMultiplayer
      ensures this.tuning == tuning && this.capoFret == capoFret && this.centOffset == centOffset
    {
      this.arrangementType := arrangementType;
      this.arrangementName := arrangementName;
      this.properties := properties;
      this.arrangementSort := arrangementSort;
      this.dynamicVisualDensity := dynamicVisualDensity;
      this.persistentId := persistentId;
      this.masterId := masterId;
      this.tones := tones;
      this.slots := slots;
      this.toneMultiplayer := toneMultiplayer;
      this.tuning := tuning;
      this.capoFret := capoFret;
      this.centOffset := centOffset;
    }
  }
}
