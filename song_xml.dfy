/** The XML arrangement document (Song2014): its typed content, the file it is
    loaded from and saved to, and the comment nodes kept beside it. */
module SongXml {
  import opened Wrappers

  /** The six open-string offsets, in semitones from standard tuning. */
  datatype TuningStrings = TuningStrings(
    string0: int, string1: int, string2: int, string3: int, string4: int, string5: int)

  /** Standard tuning: every string at offset 0. */
  const StandardTuning := TuningStrings(0, 0, 0, 0, 0, 0)

  /** One entry of the document's tone list: name, numeric id and apply time. */
  datatype ToneEntry = ToneEntry(name: Option<string>, id: int, time: real)

  /** The tone slots Base and A to D, each a name that may be null. */
  datatype Slots = Slots(
    base: Option<string>, a: Option<string>, b: Option<string>, c: Option<string>, d: Option<string>)

  /** No slot set: the state of a freshly allocated object. */
  const NoSlots := Slots(None, None, None, None, None)

  /** What a typed load reads from, and a typed save writes to, an XML
      arrangement file: format version, tone slots, tone list (null when the
      file has none) and tuning block (null when the file has none). */
  datatype XmlContent = XmlContent(
    version: string, slots: Slots, tones: Option<seq<ToneEntry>>, tuning: Option<TuningStrings>)

  /** An XML arrangement file on disk: its typed content and, separately,
      the ordered comment nodes the typed serializer does not know about. */
  class XmlFile {
    var content: XmlContent
    var comments: seq<string>

    constructor (content: XmlContent, comments: seq<string>)
      ensures this.content == content && this.comments == comments
    {
      this.content := content;
      this.comments := comments;
    }
  }

  /** Song2014.ReadXmlComments: the comment nodes of the file, in order. */
  function ReadXmlComments(file: XmlFile): (r: seq<string>)
    reads file
  {
    file.comments
  }

  /** Song2014.WriteXmlComments with writeNewVers false: puts the given comment
      nodes back into the file and leaves its typed content alone, so that
      reading the comments back gives exactly what was written. */
  method WriteXmlComments(file: XmlFile, comments: seq<string>)
    modifies file`comments
    ensures ReadXmlComments(file) == comments
  {
    file.comments := comments;
  }

  /** The in-memory document, updated in place while an arrangement is built. */
  class Song2014 {
    var version: string
    var toneBase: Option<string>
    var toneA: Option<string>
    var toneB: Option<string>
    var toneC: Option<string>
    var toneD: Option<string>
    var tones: array?<ToneEntry>
    var tuning: Option<TuningStrings>

    function DocSlots(): Slots
      reads this
    {
      Slots(toneBase, toneA, toneB, toneC, toneD)
    }

    /** The typed content this document would be serialized to. */
    function Content(): XmlContent
      reads this, tones
    {
      XmlContent(version, DocSlots(), if tones == null then None else Some(tones[..]), tuning)
    }

    /** Song2014.LoadFromFile: a document holding the file's typed content. */
    constructor LoadFromFile(file: XmlFile)
      ensures Content() == file.content
      ensures tones != null ==> fresh(tones)
    {
      var c := file.content;
      version := c.version;
      toneBase, toneA, toneB, toneC, toneD := c.slots.base, c.slots.a, c.slots.b, c.slots.c, c.slots.d;
      tuning := c.tuning;
      if c.tones.Some? {
        var a := new ToneEntry[|c.tones.value|](i requires 0 <= i < |c.tones.value| => c.tones.value[i]);
        assert a[..] == c.tones.value;
        tones := a;
      } else {
        tones := null;
      }
    }

    /** Song2014.Serialize into File.Open(..., FileMode.Create): the file's typed
        content becomes this document's, and its comments are lost. */
    method SaveTo(file: XmlFile)
      modifies file
      ensures file.content == Content()
      ensures file.comments == []
    {
      file.content := Content();
      file.comments := [];
    }
  }
}
