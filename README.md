# Arrangement construction and repair (Rocksmith Custom Song Toolkit)

This project is a Dafny model of how the toolkit builds an `Arrangement` from
two inputs: a song manifest's `Attributes2014` and the arrangement's XML file.
The source is `RocksmithToolkitLib/DLCPackage/Arrangement.cs`. The model covers:

- the four-argument constructor and `DetectTuning`;
- the arrangement-kind mapping `SetArrType`;
- the list label `ToString`;
- `ClearCache`.

The constructor does the following:

1. It copies the manifest's scalar properties.
2. It returns early for vocal and show-light arrangements.
3. It reads the file's XML comments.
4. It handles tones in one of two ways:
   - An RS2012 manifest (no tone list) keeps only the base tone.
   - An RS2014 manifest reconciles every manifest tone against the tone slots and the tone list of the XML document:
     - it repairs the "ToneA"…"ToneD" placeholders;
     - it renames entries to the manifest's tone names;
     - it stamps tone ids.
   - RS2014 only: a broken multitone is collapsed to a single tone.
   - RS2014 only: a missing tuning defaults to standard tuning.
   - RS2014 only: the document is saved, and its comments are written back.
   - RS2014 only: a bass arrangement tuned too low can have its low bass repaired.
5. It asks the tuning catalog for the tuning name, and sets the capo fret and the reference pitch.

How the model is laid out:

- **`ArrangementData`**
  - `ArrangementProps` is one record that holds all of an arrangement's properties.
  - `KindOf` models `SetArrType`.
  - `Label` models `ToString`.
- **`ToneRules`**: the tone reconciliation, written as functions.
  - `Step` handles one manifest tone.
  - `Reconcile` handles the whole tone list.
  - `Cleanup` is the single-tone cleanup.
- **`BuildSpec`**
  - `Expected` is the whole construction as one function of its inputs. It gives the new properties, the file's new content and the manifest's new cent offset, or the error the constructor throws.
- **`Arrangements`**: the imperative code.
  - `class Arrangement` keeps its properties in one field, `props`. The methods update that field step by step, in the order the constructor does.
  - The constructor body is `Fill`. It is proved equal to `Expected`.
  - The document's tone list is an `array` that `RenameXmlTones` renames in place.
- **`SongXml`** models the XML file and `Song2014`.
- **`Manifest`** models the manifest attributes.

Two collaborators are passed in as parameters:

- `detect`: the tuning catalog, a function from a tuning and the is-guitar flag to a `TuningDefinition`.
- `bassFix`: the outcome of `TuningFrequency.ApplyBassFix`.

Points where the model follows what the code does:

- Tone ids are 1, 2 and 3 for tones B, C and D. Base and A give 0, and a later match overrides an earlier one.
- The XML file is loaded for every kind of arrangement. Vocal and show-light arrangements load it too.
- Cleanup, the standard-tuning default, the save and the low-bass repair happen only in the RS2014 branch.
- The single-tone cleanup clears A, B and C but leaves D as it was.
- A manifest or tone-list name that is null when `ToLower` is called on it is the error `NullToneName`. The code throws there; it has no precondition.
- Building is not idempotent. The single-tone cleanup saves ToneA as "", so a second build on the rewritten file skips the cleanup and can set ToneB (and ToneC) again on both the arrangement and the document (`ToneRules.RebuildNotIdempotent`).

## Model

| member | source | states |
|---|---|---|
| ArrangementData.KindOf | RocksmithToolkitLib/DLCPackage/Arrangement.cs:246-263 | each arrangement kind holds exactly for its names: Bass iff Bass, Vocal iff JVocals or Vocals, ShowLight iff ShowLights, and Guitar for every other name |
| ArrangementData.Details | RocksmithToolkitLib/DLCPackage/Arrangement.cs:281-296 | the bracketed part of a playable label always starts with " [" and ends with ")" |
| ArrangementData.ToneDesc | RocksmithToolkitLib/DLCPackage/Arrangement.cs:268-279 | the tone description is empty exactly when no tone is shown: Base, B, C and D are null or empty and A is null, empty or a repeat of Base |
| ArrangementData.Label | RocksmithToolkitLib/DLCPackage/Arrangement.cs:266-302 | a guitar or bass label starts with its kind's name; LabelOfPlayable, LabelMetronomeSuffix and LabelOfNonPlayable state the rest |
| ArrangementData.ToneDescSkipsRepeatedA | RocksmithToolkitLib/DLCPackage/Arrangement.cs:268-279 | an A tone equal to the base tone is not listed again: the description is the same as with no A tone |
| ArrangementData.ToneDescStartsWithBase | RocksmithToolkitLib/DLCPackage/Arrangement.cs:268-279 | a non-empty base tone starts the tone description |
| ArrangementData.LabelOfNonPlayable | RocksmithToolkitLib/DLCPackage/Arrangement.cs:297-299 | vocal and show-light arrangements are labelled by their name alone |
| ArrangementData.LabelOfPlayable | RocksmithToolkitLib/DLCPackage/Arrangement.cs:293-301 | a bass label starts "Bass [", and a guitar label starts "Guitar - <name> [" |
| ArrangementData.LabelMetronomeSuffix | RocksmithToolkitLib/DLCPackage/Arrangement.cs:289-301 | a playable label ends with " +Metronome" exactly when the metronome is generated |
| ToneRules.ToneId | RocksmithToolkitLib/DLCPackage/Arrangement.cs:135-156 | the id is in 0..3: it is 3 exactly when D names the tone; 2 when C does and D does not; 1 when only B of B, C and D does; 0 when none of them does |
| ToneRules.RenamePlaceholder | RocksmithToolkitLib/DLCPackage/Arrangement.cs:162-170 | a name that is not a placeholder is kept; "ToneA", "ToneB", "ToneC" and "ToneD" become the manifest's Tone_A, Tone_B, Tone_C and Tone_D (for A to C, when that manifest name is not itself a placeholder, since the repairs run in order); the result is always the name or one of the manifest's A to D names |
| ToneRules.RenameEntry | RocksmithToolkitLib/DLCPackage/Arrangement.cs:162-176 | an entry throws exactly when its repaired name is null; a matching entry (equal ignoring case, or a suffix of the manifest name) gets the manifest name and the tone id; any other entry keeps its id and has at most its placeholder repaired; its time never changes |
| ToneRules.RenameAll | RocksmithToolkitLib/DLCPackage/Arrangement.cs:159-177 | the inner loop succeeds exactly when no entry throws, and then keeps the list's length and gives every entry its own renaming |
| ToneRules.FailureSticks | RocksmithToolkitLib/DLCPackage/Arrangement.cs:129-189 | once a prefix of the manifest tone list throws, the whole list throws the same error |
| ToneRules.StepWritesBothSides | RocksmithToolkitLib/DLCPackage/Arrangement.cs:138-156 | a slot that names the tone is written with the manifest's name on both the arrangement and the document; each of Base, A, B, C and D that does not match keeps its value on both sides |
| ToneRules.MissingMultitone | RocksmithToolkitLib/DLCPackage/Arrangement.cs:181-188 | a switching tone (id above 0) against a document with no tone list empties the list under fixMultiTone, and throws without it |
| ToneRules.NullToneSkipped | RocksmithToolkitLib/DLCPackage/Arrangement.cs:131-132 | a null element of the manifest tone list changes nothing |
| ToneRules.RenameAllOnlyTouchesMatches | RocksmithToolkitLib/DLCPackage/Arrangement.cs:159-177 | after the inner loop each entry either carries the manifest name and the tone id, or kept its id and at most had its placeholder repaired; times are unchanged |
| ToneRules.PlaceholderRenamedToManifestName | RocksmithToolkitLib/DLCPackage/Arrangement.cs:162-176 | an old "ToneB" entry is renamed to the manifest's Tone_B and stamped with Tone_B's id |
| ToneRules.CleanupEffect | RocksmithToolkitLib/DLCPackage/Arrangement.cs:191-199 | when the tone list is null or empty and ToneA is non-empty, A, B and C become "" on both sides and Base becomes the manifest's base tone; the cleanup is idempotent |
| ToneRules.RebuildNotIdempotent | RocksmithToolkitLib/DLCPackage/Arrangement.cs:142-199 | a concrete case where building again on the document the first build saved sets ToneB again: the first build's cleanup saves ToneA as "", so the second build's cleanup does not fire |
| ToneRules.Step | RocksmithToolkitLib/DLCPackage/Arrangement.cs:129-188 | one element of the manifest tone list: only a non-null element can throw; an existing tone list keeps its length, and a missing one stays missing or becomes empty. StepWritesBothSides states the slots, StepRenamesExistingList the renaming of an existing list, MissingMultitone a missing list, NullToneSkipped a null element and StepNullThrows a null name or base |
| ToneRules.StepRenamesExistingList | RocksmithToolkitLib/DLCPackage/Arrangement.cs:158-177 | against an existing tone list, one manifest tone renames the list with RenameAll and ToneId's id, and throws exactly when that renaming does |
| ToneRules.StepNullThrows | RocksmithToolkitLib/DLCPackage/Arrangement.cs:138 | a manifest tone with a null name, or a manifest with a null base tone, throws |
| ToneRules.Reconcile | RocksmithToolkitLib/DLCPackage/Arrangement.cs:129-189 | the whole outer loop keeps the length of an existing tone list, and leaves a missing one missing or empty; FailureSticks and NullTonesChangeNothing state its other properties |
| ToneRules.NullTonesChangeNothing | RocksmithToolkitLib/DLCPackage/Arrangement.cs:129-132 | a manifest tone list whose elements are all null leaves the arrangement and the document as they were |
| ToneRules.Cleanup | RocksmithToolkitLib/DLCPackage/Arrangement.cs:191-199 | the cleanup never touches the tone list or the D slots, and it changes something only when the tone list is null or empty and ToneA is non-empty; CleanupEffect states what it then does |
| BuildSpec.RoundHalfEven | RocksmithToolkitLib/DLCPackage/Arrangement.cs:101 | the result is within 0.5 of the input, and a tie goes to the even neighbour |
| BuildSpec.ScrollSpeedOf | RocksmithToolkitLib/DLCPackage/Arrangement.cs:101 | an empty density list fails with NoDensitySample, and no other input does; a non-empty list succeeds exactly when the last sample times 10, rounded half to even, fits in Int32, and the success is that value |
| BuildSpec.ManifestCopies | RocksmithToolkitLib/DLCPackage/Arrangement.cs:91-108 | the copies made before the early return set no tone slot, comment list, tuning or tuning strings |
| BuildSpec.Finished | RocksmithToolkitLib/DLCPackage/Arrangement.cs:224-240 | after DetectTuning the tuning name and tuning strings are set, and the kind and tone slots are unchanged |
| BuildSpec.Complete | RocksmithToolkitLib/DLCPackage/Arrangement.cs:224-229 | the final step leaves the file and the cent offset alone and always sets tuning and tuning strings |
| BuildSpec.Rs2014Branch | RocksmithToolkitLib/DLCPackage/Arrangement.cs:125-222 | the RS2014 branch fails exactly when tone reconciliation throws, with that error; on success the arrangement's slots and the saved document's slots are the reconciled slots after the single-tone cleanup, the saved tone list is the reconciled one, the version is kept, the saved tuning is always set and is the one the catalog is later asked about, and the cent offset is the manifest's or -1200; without fixLowBass it is the manifest's and the document keeps the saved tuning |
| BuildSpec.Playable | RocksmithToolkitLib/DLCPackage/Arrangement.cs:114-229 | the guitar and bass part fails only with ExtraneousToneData or a tone error; on success the kind, name, comments and scroll speed are kept and tuning and tuning strings are set |
| BuildSpec.Expected | RocksmithToolkitLib/DLCPackage/Arrangement.cs:87-229 | the whole construction fails with ArrangementTypeMissing exactly when the type is null, and with NoDensitySample exactly when the density list is empty; a success records the XML path, the kind SetArrType gives, the manifest's name and scroll speed, and the file's comments exactly for guitar and bass |
| BuildSpec.NonPlayableReturnsEarly | RocksmithToolkitLib/DLCPackage/Arrangement.cs:110-112 | vocal and show-light arrangements succeed with no tones, comments, tuning or pitch, and with the file and cent offset unchanged |
| BuildSpec.LegacyToneBranch | RocksmithToolkitLib/DLCPackage/Arrangement.cs:118-124 | an RS2012 manifest throws exactly when it names a tone A to D; otherwise only the base tone is set, comments are kept and the file is not rewritten |
| BuildSpec.PlayableHasTuning | RocksmithToolkitLib/DLCPackage/Arrangement.cs:224-240 | every guitar or bass arrangement that builds has a tuning name and tuning strings, and the kind its manifest names |
| BuildSpec.StandardTuningDefault | RocksmithToolkitLib/DLCPackage/Arrangement.cs:201-205 | in the RS2014 branch, whenever the low-bass repair does not apply or fails, a file with no tuning is saved with standard tuning and the catalog is asked about standard tuning |
| BuildSpec.LowBassPinsReferencePitch | RocksmithToolkitLib/DLCPackage/Arrangement.cs:214-228 | a successful low-bass repair sets the cent offset to -1200 and the pitch from it, and the tuning is reloaded from the rewritten file; without fixLowBass the cent offset is unchanged |
| SongXml.WriteXmlComments | RocksmithToolkitLib/DLCPackage/Arrangement.cs:212 | after writing, reading the file's comments (ReadXmlComments, line 115) gives exactly the comments written, and the typed content is untouched |
| SongXml.Song2014.LoadFromFile | RocksmithToolkitLib/DLCPackage/Arrangement.cs:89 | the loaded document holds the file's typed content, with a fresh tone array |
| SongXml.Song2014.SaveTo | RocksmithToolkitLib/DLCPackage/Arrangement.cs:207-209 | saving writes the document's content and leaves the file without comments |
| Arrangements.RenameXmlTone | RocksmithToolkitLib/DLCPackage/Arrangement.cs:162-176 | the imperative renaming of one entry agrees with RenameEntry |
| Arrangements.RenameXmlTones | RocksmithToolkitLib/DLCPackage/Arrangement.cs:159-177 | the in-place loop over the tone array completes exactly when RenameAll succeeds, and then leaves the array equal to RenameAll's result |
| Arrangements.ApplyBassFix | RocksmithToolkitLib/DLCPackage/Arrangement.cs:217 | the repair reports success exactly when it has an outcome, and then only the file's tuning changes |
| Arrangements.Arrangement.Blank | RocksmithToolkitLib/DLCPackage/Arrangement.cs:87 | a freshly allocated arrangement has every property unset |
| Arrangements.Arrangement.AssignMatchingSlots | RocksmithToolkitLib/DLCPackage/Arrangement.cs:135-156 | the slot tests give ToneId's id, and apply AssignSlots to both the arrangement's slots and the document's slots, changing no other property |
| Arrangements.Arrangement.AssignBaseAndA | RocksmithToolkitLib/DLCPackage/Arrangement.cs:138-141 | the Base and A tests write the manifest's Base and A names on both sides exactly when they name the tone |
| Arrangements.Arrangement.AssignSwitchSlots | RocksmithToolkitLib/DLCPackage/Arrangement.cs:142-156 | the B, C and D tests write those manifest names on both sides when they name the tone, and the id they leave is ToneId's |
| Arrangements.Arrangement.ReconcileTone | RocksmithToolkitLib/DLCPackage/Arrangement.cs:129-188 | one iteration of the outer loop leaves the slots and the tone list as Step says, or returns Step's error; no other property changes |
| Arrangements.Arrangement.ReconcileTones | RocksmithToolkitLib/DLCPackage/Arrangement.cs:129-189 | the outer loop leaves the state Reconcile gives for the whole tone list, or returns its error |
| Arrangements.Arrangement.CleanupSingleTone | RocksmithToolkitLib/DLCPackage/Arrangement.cs:191-199 | the slots on both sides become what Cleanup gives; nothing else changes |
| Arrangements.Arrangement.SaveWithTuning | RocksmithToolkitLib/DLCPackage/Arrangement.cs:201-212 | the document's tuning is its own or standard tuning; TuningStrings takes it; the file holds the saved content and the arrangement's comments |
| Arrangements.Arrangement.RepairLowBass | RocksmithToolkitLib/DLCPackage/Arrangement.cs:214-221 | when the repair applies and succeeds, the cent offset is -1200 and the document's tuning is reloaded from the file; otherwise nothing changes |
| Arrangements.Arrangement.ReconcileAndSave | RocksmithToolkitLib/DLCPackage/Arrangement.cs:125-222 | the RS2014 branch ends in the state Rs2014Branch gives (slots, tuning strings, file, cent offset, document tuning), or returns its error |
| Arrangements.Arrangement.DetectTuning | RocksmithToolkitLib/DLCPackage/Arrangement.cs:235-240 | Tuning and TuningStrings become the catalog's answer for the document's tuning and the is-guitar flag; nothing else changes |
| Arrangements.Arrangement.CopyManifest | RocksmithToolkitLib/DLCPackage/Arrangement.cs:96-108 | the properties become ManifestCopies of the manifest, or the scroll-speed error is returned |
| Arrangements.Arrangement.FillPlayable | RocksmithToolkitLib/DLCPackage/Arrangement.cs:117-229 | the guitar and bass part ends in the state Playable gives, or returns its error |
| Arrangements.Arrangement.Fill | RocksmithToolkitLib/DLCPackage/Arrangement.cs:87-229 | the constructor body ends with the properties, file content and cent offset that Expected gives, or returns its error, and the file's comments are as they were |
| Arrangements.Arrangement.Build | RocksmithToolkitLib/DLCPackage/Arrangement.cs:87-229 | construction yields a new arrangement whose properties are Expected's, or Expected's error |
| Arrangements.Arrangement.ClearCache | RocksmithToolkitLib/DLCPackage/Arrangement.cs:305-308 | the parsed track data is dropped and no other property changes |
| Arrangements.Arrangement.ToString | RocksmithToolkitLib/DLCPackage/Arrangement.cs:266-302 | vocal and show-light arrangements show their name; guitar and bass labels end with " +Metronome" exactly when the metronome is generated |

## Left out

- File input and output are modelled on an `XmlFile` object holding typed content and a comment list. Parse failures, missing files and the byte-level serialisation are not modelled.
- `Guid.Parse` of the persistent id is not modelled. The id is kept as its string, and the parse's failure on a malformed id is not modelled.
- `Enum.Parse` of the arrangement name is not modelled. The name arrives already parsed as an `ArrangementName`, and its failure on an unknown name is not modelled.
- The casts to `PluckedType`, `RouteMask` and `Metronome` are the identity on the integer. Unknown metronome values become `OtherMetronome`.
- `ToLower` is ASCII lower-casing and `EndsWith` is an ordinal suffix test. Culture-sensitive case mapping is not modelled.
- Floating point:
  - Doubles are `real`s.
  - `Cents2Frequency` is kept as the cent offset it came from (`FromCents`).
  - The culture-dependent rendering of the frequency in `ToString` is a parameter.
  - The `CapoFret` decimal is an integer.
- `TuningDefinitionRepository.Detect` is not part of this model. It is the `detect` parameter.
- `TuningFrequency.ApplyBassFix` is not part of this model. Its result and the tuning it leaves in the rewritten file are the `bassFix` parameter. Its other effects on the arrangement are not modelled.
- The parameterless constructor is not modelled, and neither are `IdGenerator` and `RandomGenerator`.
- `Debug.Assert` on the arrangement type is not modelled. A null type is modelled through what follows it: the cast throws, which is `ArrangementTypeMissing`.
- On an exception, the arrangement is half-built and the file may be partly rewritten. These states are not modelled: the model returns the error, and the caller never sees the object.
- Arrangements.Arrangement.Fill: the properties are held in one record-valued field. The order in which single properties are assigned within one step is therefore not captured. Only the state after each step is captured.
- The manifest's reference fields (`DynamicVisualDensity`, `ArrangementProperties`, `Tuning`) and the elements of the document's tone list are assumed non-null. The null-reference exceptions the code would throw on them (lines 101, 102, 163, 172 and 216) are not modelled.
- BuildSpec.PlayableHasTuning: the tuning catalog is assumed to answer for every tuning, including a missing one. In the RS2012 branch, a file without a tuning block passes a null tuning to `Detect` (line 237), and how `Detect` treats null is not part of this model. In the RS2014 branch the catalog is always asked about a set tuning (`BuildSpec.Rs2014Branch`).
- Arrangements.ApplyBassFix: the repair is assumed to rewrite only the file's tuning block and to keep its comments and the rest of its content. The file comments that `Fill` and `Build` promise on the repaired path, and the file content after the repair, rest on this assumption.
- The pitch test `TuningPitch > 0 && !TuningPitch.Equals(440.0)` (line 286) is modelled as "the cent offset is set and non-zero". That equivalence holds for `440 * 2^(cents / 1200)` over the reals, not for doubles. `Cents2Frequency` itself is not part of this model.
