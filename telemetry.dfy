/** The values the ingester handles: a change record from the stream, the
    telemetry sample projected from it, the four-field JSON record written for
    it, and the manifest describing the sample's shape. */
module Telemetry {
  import opened Wrappers

  newtype byte = x: int | 0 <= x < 256

  /** Go's `int64`, the type of `current_ix`. */
  newtype Int64 = x: int | -0x8000_0000_0000_0000 <= x < 0x8000_0000_0000_0000

  /** A `float64`, carried through unchanged and never computed with. */
  datatype Float64 = Float64(bits: bv64)

  /** The telemetry struct: the values the attribute accessors extracted from a
      record's new image. */
  datatype Sample = Sample(
    time: string,
    currentIX: Int64,
    camImageArray: string,
    image: string,        // base64 of the camera frame
    vehicleID: string,
    userAngle: Float64,
    userThrottle: Float64,
    userMode: string)

  /** One stream record: its event name and the sample read from its new image. */
  datatype ChangeRecord = ChangeRecord(eventName: string, newImage: Sample)

  /** The handler's filter: only newly inserted items are ingested. */
  predicate IsInsert(r: ChangeRecord) {
    r.eventName == "INSERT"
  }

  /** The fields of the telemetry struct. */
  datatype Field = Time | CurrentIX | CamImageArray | Image | VehicleID | UserAngle | UserThrottle | UserMode

  /** The JSON tag each field is declared with. */
  function Tag(f: Field): string {
    match f
    case Time => "time"
    case CurrentIX => "current_ix"
    case CamImageArray => "cam/image_array"
    case Image => "image"
    case VehicleID => "vehicleID"
    case UserAngle => "user/angle"
    case UserThrottle => "user/throttle"
    case UserMode => "user/mode"
  }

  datatype JsonValue = JStr(s: string) | JInt(i: int) | JNum(f: Float64)

  /** The sample's value in a field, as JSON sees it. */
  function SampleField(t: Sample, f: Field): JsonValue {
    match f
    case Time => JStr(t.time)
    case CurrentIX => JInt(t.currentIX as int)
    case CamImageArray => JStr(t.camImageArray)
    case Image => JStr(t.image)
    case VehicleID => JStr(t.vehicleID)
    case UserAngle => JNum(t.userAngle)
    case UserThrottle => JNum(t.userThrottle)
    case UserMode => JStr(t.userMode)
  }

  /** The JSON record struct, fields in declaration order. */
  datatype JsonRecord = JsonRecord(
    userMode: string,
    camImageArray: string,
    userThrottle: Float64,
    userAngle: Float64)

  /** The members a JSON record serialises to, field and value, in
      declaration order (each under the same tag as the sample's field). */
  function Members(j: JsonRecord): seq<(Field, JsonValue)> {
    [(UserMode, JStr(j.userMode)),
     (CamImageArray, JStr(j.camImageArray)),
     (UserThrottle, JNum(j.userThrottle)),
     (UserAngle, JNum(j.userAngle))]
  }

  /** The four fields a JSON record keeps, in order. */
  const RecordFields: seq<Field> := [UserMode, CamImageArray, UserThrottle, UserAngle]

  /** The JSON record built from a sample. */
  function ToJsonRecord(t: Sample): JsonRecord {
    JsonRecord(t.userMode, t.camImageArray, t.userThrottle, t.userAngle)
  }

  /** The record carries exactly the four retained fields, in order, each
      holding the sample's own value in that field. */
  lemma JsonRecordCopiesSample(t: Sample)
    ensures |Members(ToJsonRecord(t))| == |RecordFields|
    ensures forall k :: 0 <= k < |RecordFields| ==>
      Members(ToJsonRecord(t))[k] == (RecordFields[k], SampleField(t, RecordFields[k]))
  {
  }

  /** The record drops `time`, `vehicleID`, `image` and `current_ix`: two
      samples give the same record exactly when they agree on the four retained
      fields. */
  lemma JsonRecordKeepsExactly(s: Sample, t: Sample)
    ensures ToJsonRecord(s) == ToJsonRecord(t) <==>
      forall f :: f in RecordFields ==> SampleField(s, f) == SampleField(t, f)
  {
    if forall f :: f in RecordFields ==> SampleField(s, f) == SampleField(t, f) {
      assert SampleField(s, UserMode) == SampleField(t, UserMode);
      assert SampleField(s, CamImageArray) == SampleField(t, CamImageArray);
      assert SampleField(s, UserThrottle) == SampleField(t, UserThrottle);
      assert SampleField(s, UserAngle) == SampleField(t, UserAngle);
    }
  }

  /** The manifest body, byte for byte, written in pieces: the opening of the
      `types` list, its four quoted entries, the `inputs` list and its four
      quoted entries, and the closing brackets. */
  const Meta: string :=
    "{\"types\": ["
    + ("\"image_array\"" + ", " + ("\"float\"" + ", " + ("\"float\"" + ", " + "\"str\"")))
    + "], \"inputs\": ["
    + ("\"cam/image_array\"" + ", " + ("\"user/angle\"" + ", " + ("\"user/throttle\"" + ", " + "\"user/mode\"")))
    + "]}"

  /** The input types a manifest can name. */
  datatype InputType = ImageArray | Float | Str

  function TypeName(k: InputType): string {
    match k
    case ImageArray => "image_array"
    case Float => "float"
    case Str => "str"
  }

  /** The manifest's two lists: the type of each input, and the inputs, by
      field. */
  const ManifestTypes: seq<InputType> := [ImageArray, Float, Float, Str]
  const ManifestInputs: seq<Field> := [CamImageArray, UserAngle, UserThrottle, UserMode]

  function Tags(fs: seq<Field>): seq<string> {
    seq(|fs|, k requires 0 <= k < |fs| => Tag(fs[k]))
  }

  function TypeNames(ks: seq<InputType>): seq<string> {
    seq(|ks|, k requires 0 <= k < |ks| => TypeName(ks[k]))
  }

  function Quoted(s: string): string {
    "\"" + s + "\""
  }

  /** The quoted entries of a JSON list of strings, separated by `, `. */
  function JoinQuoted(xs: seq<string>): string {
    if xs == [] then ""
    else if |xs| == 1 then Quoted(xs[0])
    else Quoted(xs[0]) + ", " + JoinQuoted(xs[1..])
  }

  /** A manifest document rendered the way the constant is written. */
  function RenderManifest(types: seq<string>, inputs: seq<string>): string {
    "{\"types\": [" + JoinQuoted(types) + "], \"inputs\": [" + JoinQuoted(inputs) + "]}"
  }

  lemma JoinManifestTypes()
    ensures JoinQuoted(TypeNames(ManifestTypes)) ==
      "\"image_array\"" + ", " + ("\"float\"" + ", " + ("\"float\"" + ", " + "\"str\""))
  {
    var ts := TypeNames(ManifestTypes);
    assert Quoted(ts[0]) == "\"image_array\"";
    assert Quoted(ts[1]) == "\"float\"";
    assert Quoted(ts[3]) == "\"str\"";
    assert JoinQuoted(ts[3..]) == Quoted(ts[3]);
    assert JoinQuoted(ts[2..]) == Quoted(ts[2]) + ", " + JoinQuoted(ts[3..]);
    assert JoinQuoted(ts[1..]) == Quoted(ts[1]) + ", " + JoinQuoted(ts[2..]);
  }

  lemma JoinManifestInputs()
    ensures JoinQuoted(Tags(ManifestInputs)) ==
      "\"cam/image_array\"" + ", " + ("\"user/angle\"" + ", " + ("\"user/throttle\"" + ", " + "\"user/mode\""))
  {
    var ins := Tags(ManifestInputs);
    assert Quoted(ins[0]) == "\"cam/image_array\"";
    assert Quoted(ins[1]) == "\"user/angle\"";
    assert Quoted(ins[2]) == "\"user/throttle\"";
    assert Quoted(ins[3]) == "\"user/mode\"";
    assert JoinQuoted(ins[3..]) == Quoted(ins[3]);
    assert JoinQuoted(ins[2..]) == Quoted(ins[2]) + ", " + JoinQuoted(ins[3..]);
    assert JoinQuoted(ins[1..]) == Quoted(ins[1]) + ", " + JoinQuoted(ins[2..]);
  }

  /** The constant body is the rendering of the two lists above, the inputs
      under their JSON tags. */
  lemma MetaIsRenderedManifest()
    ensures RenderManifest(TypeNames(ManifestTypes), Tags(ManifestInputs)) == Meta
  {
    JoinManifestTypes();
    JoinManifestInputs();
  }

  /** The manifest lists the same fields the JSON record carries (in another
      order), and its type for each matches the kind of value the sample holds
      there: `float` for the numbers, `str` for the mode, and the camera image
      reference as an image array. */
  lemma ManifestDescribesRecord(t: Sample)
    ensures multiset(ManifestInputs) == multiset(RecordFields)
    ensures |ManifestTypes| == |ManifestInputs|
    ensures forall k :: 0 <= k < |ManifestInputs| ==>
      (ManifestTypes[k] == Float <==> SampleField(t, ManifestInputs[k]).JNum?)
    ensures forall k :: 0 <= k < |ManifestInputs| ==>
      (ManifestTypes[k] == Str <==> ManifestInputs[k] == UserMode)
    ensures forall k :: 0 <= k < |ManifestInputs| ==>
      (ManifestTypes[k] == ImageArray <==> ManifestInputs[k] == CamImageArray)
  {
    assert ManifestInputs == [RecordFields[1], RecordFields[3], RecordFields[2], RecordFields[0]];
    forall k | 0 <= k < |ManifestInputs|
      ensures ManifestTypes[k] == Float <==> SampleField(t, ManifestInputs[k]).JNum?
      ensures ManifestTypes[k] == Str <==> ManifestInputs[k] == UserMode
      ensures ManifestTypes[k] == ImageArray <==> ManifestInputs[k] == CamImageArray
    {
      if k == 0 {
      } else if k == 1 {
      } else if k == 2 {
      } else {
        assert k == 3;
      }
    }
  }

  predicate IsAscii(s: string) {
    forall i :: 0 <= i < |s| ==> s[i] < 128 as char
  }

  lemma AsciiAppend(a: string, b: string)
    requires IsAscii(a) && IsAscii(b)
    ensures IsAscii(a + b)
  {
    forall i | 0 <= i < |a + b|
      ensures (a + b)[i] < 128 as char
    {
      if i >= |a| {
        assert (a + b)[i] == b[i - |a|];
      }
    }
  }

  /** Four ASCII list entries joined by `, ` are ASCII. */
  lemma AsciiList(x: string, y: string, z: string, w: string)
    requires IsAscii(x) && IsAscii(y) && IsAscii(z) && IsAscii(w)
    ensures IsAscii(x + ", " + (y + ", " + (z + ", " + w)))
  {
    assert IsAscii(", ");
    AsciiAppend(z, ", ");
    AsciiAppend(z + ", ", w);
    AsciiAppend(y, ", ");
    AsciiAppend(y + ", ", z + ", " + w);
    AsciiAppend(x, ", ");
    AsciiAppend(x + ", ", y + ", " + (z + ", " + w));
  }

  lemma AsciiDocument(open: string, types: string, middle: string, inputs: string, close: string)
    requires IsAscii(open) && IsAscii(types) && IsAscii(middle) && IsAscii(inputs) && IsAscii(close)
    ensures IsAscii(open + types + middle + inputs + close)
  {
    AsciiAppend(open, types);
    AsciiAppend(open + types, middle);
    AsciiAppend(open + types + middle, inputs);
    AsciiAppend(open + types + middle + inputs, close);
  }

  lemma TypesAscii()
    ensures IsAscii("\"image_array\"" + ", " + ("\"float\"" + ", " + ("\"float\"" + ", " + "\"str\"")))
  {
    assert IsAscii("\"image_array\"");
    assert IsAscii("\"float\"");
    assert IsAscii("\"str\"");
    AsciiList("\"image_array\"", "\"float\"", "\"float\"", "\"str\"");
  }

  lemma InputsAscii()
    ensures IsAscii("\"cam/image_array\"" + ", " + ("\"user/angle\"" + ", " + ("\"user/throttle\"" + ", " + "\"user/mode\"")))
  {
    assert IsAscii("\"cam/image_array\"");
    assert IsAscii("\"user/angle\"");
    assert IsAscii("\"user/throttle\"");
    assert IsAscii("\"user/mode\"");
    AsciiList("\"cam/image_array\"", "\"user/angle\"", "\"user/throttle\"", "\"user/mode\"");
  }

  /** The manifest is plain ASCII, so its UTF-8 bytes are its characters. */
  lemma MetaIsAscii()
    ensures IsAscii(Meta)
  {
    TypesAscii();
    InputsAscii();
    assert IsAscii("{\"types\": [");
    assert IsAscii("], \"inputs\": [");
    assert IsAscii("]}");
    AsciiDocument("{\"types\": [",
      "\"image_array\"" + ", " + ("\"float\"" + ", " + ("\"float\"" + ", " + "\"str\"")),
      "], \"inputs\": [",
      "\"cam/image_array\"" + ", " + ("\"user/angle\"" + ", " + ("\"user/throttle\"" + ", " + "\"user/mode\"")),
      "]}");
  }

  /** Bytes of an ASCII string (its UTF-8 encoding). Read back as text, they
      give the string again. */
  function AsciiBytes(s: string): (b: seq<byte>)
    requires IsAscii(s)
    ensures AsciiText(b) == s
  {
    seq(|s|, i requires 0 <= i < |s| => s[i] as int as byte)
  }

  /** Text of a byte string, one character per byte. */
  function AsciiText(b: seq<byte>): string {
    seq(|b|, i requires 0 <= i < |b| => b[i] as int as char)
  }

  /** `[]byte(meta)`: the manifest body as uploaded. The manifest is ASCII, so
      the bytes, read back one character per byte, are the manifest text. */
  function MetaBody(): (b: seq<byte>)
    ensures AsciiText(b) == Meta
  {
    MetaIsAscii();
    AsciiBytes(Meta)
  }
}
