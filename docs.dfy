/** MongoDB documents as the application sees them (database/connection.py): dictionaries
    from field names to BSON values, and the serializers that turn a stored document into the
    JSON-ready dictionary the API returns. */
module Docs {
  import opened Wrappers
  import opened Errors
  import opened Text
  import opened Clock
  import Base64
  import opened Maps

  type byte = Base64.byte

  /** A BSON ObjectId; `serial` stands for its twelve bytes. */
  datatype ObjectId = ObjectId(serial: nat)

  /** `str(ObjectId)`: twenty-four lower-case hex digits. */
  function HexId(o: ObjectId): (s: string)
    ensures |s| == 24
  {
    Fixed(o.serial, 24, 16)
  }

  /** The values stored in the application's collections. */
  datatype Value =
    | VStr(s: string)
    | VBytes(b: seq<byte>)
    | VNone
    | VTime(t: DateTime)
    | VOid(id: ObjectId)

  type Fields = map<string, Value>

  /** `dict.get(key, default)`. */
  function Get(doc: Fields, key: string, default: Value): Value
  {
    if key in doc then doc[key] else default
  }

  /** Python truthiness of a value. */
  predicate Truthy(v: Value)
  {
    match v
    case VStr(s) => s != ""
    case VBytes(b) => b != []
    case VNone => false
    case VTime(_) => true
    case VOid(_) => true
  }

  /** Truthiness of an optional text (`if not field`): sent, and not the empty string. */
  predicate Given(field: Option<string>)
  {
    field.Some? && field.value != ""
  }

  /** `type(v).__name__` as Python's error messages print it. */
  function TypeName(v: Value): string
  {
    match v
    case VStr(_) => "str"
    case VBytes(_) => "bytes"
    case VNone => "NoneType"
    case VTime(_) => "datetime.datetime"
    case VOid(_) => "ObjectId"
  }

  /** `repr(b)` of a bytes object, as CPython writes it. */
  function BytesRepr(b: seq<byte>): string
  {
    var quote := if 39 in b && 34 !in b then '"' else '\'';
    "b" + [quote] + EscapeBytes(b, quote) + [quote]
  }

  function EscapeBytes(b: seq<byte>, quote: char): string
  {
    if b == [] then "" else EscapeByte(b[0], quote) + EscapeBytes(b[1..], quote)
  }

  function EscapeByte(c: byte, quote: char): string
  {
    if c == quote as int || c == 92 then ['\\', c as char]
    else if c == 9 then "\\t"
    else if c == 10 then "\\n"
    else if c == 13 then "\\r"
    else if c < 32 || c >= 127 then "\\x" + Fixed(c, 2, 16)
    else [c as char]
  }

  /** `str(v)`, which is also what an f-string prints. */
  function PyStr(v: Value): string
  {
    match v
    case VStr(s) => s
    case VBytes(b) => BytesRepr(b)
    case VNone => "None"
    case VTime(t) => IsoFormat(t, ' ')
    case VOid(o) => HexId(o)
  }

  /** `bytes.upper()`: ASCII letters only. */
  function UpperBytes(b: seq<byte>): (r: seq<byte>)
    ensures |r| == |b|
  {
    seq(|b|, i requires 0 <= i < |b| => if 97 <= b[i] <= 122 then b[i] - 32 else b[i])
  }

  /** `v.upper()`: defined on `str` and `bytes`; every other value raises AttributeError. */
  function UpperValue(v: Value): (r: Result<Value, Error>)
    ensures r.Success? <==> v.VStr? || v.VBytes?
    ensures v.VStr? ==> r == Success(VStr(Upper(v.s)))
    ensures r.Failure? ==> r.error == AttributeError(TypeName(v), "upper")
  {
    match v
    case VStr(s) => Success(VStr(Upper(s)))
    case VBytes(b) => Success(VBytes(UpperBytes(b)))
    case _ => Failure(AttributeError(TypeName(v), "upper"))
  }

  /** `doc["id"] = str(doc["_id"]); del doc["_id"]`, shared by every serializer. */
  function MoveId(doc: Fields): (r: Result<Fields, Error>)
    ensures "_id" !in doc <==> r == Failure(KeyError("_id"))
    ensures r.Success? ==> && r.value.Keys == doc.Keys - {"_id"} + {"id"}
                           && r.value["id"] == VStr(PyStr(doc["_id"]))
                           && forall k :: k in doc && k != "_id" && k != "id" ==> r.value[k] == doc[k]
  {
    if "_id" !in doc then Failure(KeyError("_id"))
    else Success(doc["id" := VStr(PyStr(doc["_id"]))] - {"_id"})
  }

  /** `serialize_doc`: a falsy document (None or empty) gives None; otherwise the id is
      moved to a string "id" and a `logo` holding bytes is replaced by its base64 text. */
  function SerializeDoc(doc: Option<Fields>): (r: Result<Option<Fields>, Error>)
    ensures (doc.None? || doc.value == map[]) <==> r == Success(None)
    ensures r.Failure? <==> doc.Some? && doc.value != map[] && "_id" !in doc.value
    ensures r.Success? && r.value.Some? ==>
              var d, out := doc.value, r.value.value;
              && out.Keys == d.Keys - {"_id"} + {"id"}
              && out["id"] == VStr(PyStr(d["_id"]))
              && (forall k :: k in d && k != "_id" && k != "id" && k != "logo" ==> out[k] == d[k])
              && ("logo" in d && d["logo"].VBytes? ==> out["logo"] == VStr(Base64.Encode(d["logo"].b)))
              && ("logo" in d && !d["logo"].VBytes? ==> out["logo"] == d["logo"])
  {
    if doc.None? || doc.value == map[] then Success(None)
    else
      var moved :- MoveId(doc.value);
      Success(Some(EncodeLogo(moved)))
  }

  /** `doc["logo"] = base64.b64encode(doc["logo"]).decode()` when the logo holds bytes. */
  function EncodeLogo(d: Fields): Fields
  {
    if "logo" in d && d["logo"].VBytes? then d["logo" := VStr(Base64.Encode(d["logo"].b))] else d
  }

  /** `serialize_subscriber_doc`: only the id moves; `overlay` and every other key stay. */
  function SerializeSubscriberDoc(doc: Option<Fields>): (r: Result<Option<Fields>, Error>)
    ensures (doc.None? || doc.value == map[]) <==> r == Success(None)
    ensures r.Failure? <==> doc.Some? && doc.value != map[] && "_id" !in doc.value
    ensures r.Success? && r.value.Some? ==>
              var d, out := doc.value, r.value.value;
              && out.Keys == d.Keys - {"_id"} + {"id"}
              && out["id"] == VStr(PyStr(d["_id"]))
              && forall k :: k in d && k != "_id" && k != "id" ==> out[k] == d[k]
  {
    if doc.None? || doc.value == map[] then Success(None)
    else
      var moved :- MoveId(doc.value);
      Success(Some(moved))
  }

  /** `serialize_doc` of a stored document, which always carries an `_id`. */
  function Serialized(doc: Fields): Fields
    requires "_id" in doc
  {
    SerializeDoc(Some(doc)).value.value
  }

  /** `serialize_subscriber_doc` of a stored document. */
  function SubscriberSerialized(doc: Fields): Fields
    requires "_id" in doc
  {
    SerializeSubscriberDoc(Some(doc)).value.value
  }

  /** The `{"status": ..., "message": ...}` dictionaries the handlers return. */
  function StatusMessage(status: string, message: string): Fields
  {
    map["status" := VStr(status), "message" := VStr(message)]
  }

  /** Parses the "id" text back to an ObjectId. */
  function RestoreId(out: Fields): Fields
  {
    if "id" in out && out["id"].VStr?
    then (out - {"id"})["_id" := VOid(ObjectId(ParseFixed(out["id"].s, 16)))]
    else out - {"id"}
  }

  /** Decodes a base64 `logo` back to bytes. */
  function RestoreLogo(d: Fields): Fields
  {
    if "logo" in d && d["logo"].VStr? && Base64.Decode(d["logo"].s).Some?
    then d["logo" := VBytes(Base64.Decode(d["logo"].s).value)]
    else d
  }

  /** The inverse of `serialize_doc` for a stored document: the id text parsed back to an
      ObjectId and a base64 `logo` decoded back to bytes. */
  function Restore(out: Fields): Fields
  {
    RestoreLogo(RestoreId(out))
  }

  lemma MoveIdRestores(doc: Fields, o: ObjectId)
    requires "_id" in doc && doc["_id"] == VOid(o) && o.serial < Pow(16, 24)
    requires "id" !in doc
    ensures MoveId(doc).Success? && RestoreId(MoveId(doc).value) == doc
  {
    var moved := doc["id" := VStr(HexId(o))] - {"_id"};
    assert MoveId(doc) == Success(moved);
    RestoreHexId(moved, o);
    RenameBack(doc, "_id", "id", VStr(HexId(o)));
  }

  /** An "id" holding the hex text of an ObjectId parses back to that ObjectId. */
  lemma RestoreHexId(out: Fields, o: ObjectId)
    requires "id" in out && out["id"] == VStr(HexId(o)) && o.serial < Pow(16, 24)
    ensures RestoreId(out) == (out - {"id"})["_id" := VOid(o)]
  {
    ParseHexOfFixed(o.serial, 24);
    assert ParseFixed(out["id"].s, 16) == o.serial;
  }

  lemma RestoreEncodedLogo(moved: Fields, doc: Fields, b: seq<byte>)
    requires RestoreId(moved) == doc && "logo" in doc && doc["logo"] == VBytes(b)
    requires "logo" in moved && "id" != "logo"
    ensures Restore(moved["logo" := VStr(Base64.Encode(b))]) == doc
  {
    Base64.DecodeEncode(b);
    var out := moved["logo" := VStr(Base64.Encode(b))];
    assert RestoreId(out) == doc["logo" := VStr(Base64.Encode(b))];
  }

  /** Serializing a stored user document loses nothing: its ObjectId and its logo bytes can
      be recovered from the JSON form. */
  lemma SerializeDocRestores(doc: Fields, o: ObjectId)
    requires "_id" in doc && doc["_id"] == VOid(o) && o.serial < Pow(16, 24)
    requires "id" !in doc
    requires "logo" in doc ==> !doc["logo"].VStr?
    ensures SerializeDoc(Some(doc)).Success? && SerializeDoc(Some(doc)).value.Some?
    ensures Restore(SerializeDoc(Some(doc)).value.value) == doc
  {
    MoveIdRestores(doc, o);
    var moved := MoveId(doc).value;
    assert doc != map[] by { assert "_id" in doc; }
    assert SerializeDoc(Some(doc)) == Success(Some(EncodeLogo(moved)));
    assert "logo" in moved <==> "logo" in doc;
    assert "logo" in moved ==> moved["logo"] == doc["logo"];
    if "logo" in doc && doc["logo"].VBytes? {
      RestoreEncodedLogo(moved, doc, doc["logo"].b);
    } else {
      assert RestoreLogo(doc) == doc;
    }
  }

  /** Serializing a stored subscriber document loses nothing either. */
  lemma SerializeSubscriberDocRestores(doc: Fields, o: ObjectId)
    requires "_id" in doc && doc["_id"] == VOid(o) && o.serial < Pow(16, 24)
    requires "id" !in doc
    ensures SerializeSubscriberDoc(Some(doc)).Success? && SerializeSubscriberDoc(Some(doc)).value.Some?
    ensures RestoreId(SerializeSubscriberDoc(Some(doc)).value.value) == doc
  {
    MoveIdRestores(doc, o);
    assert doc != map[] by { assert "_id" in doc; }
    assert SerializeSubscriberDoc(Some(doc)) == Success(Some(MoveId(doc).value));
  }

  /** A dictionary handed to a serializer, which rewrites it in place and returns it. */
  class Record {
    var fields: Fields

    constructor(fields: Fields)
      ensures this.fields == fields
    {
      this.fields := fields;
    }
  }

  /** `serialize_doc` as written: the dictionary itself is rewritten and returned (None
      standing for `null`); a KeyError leaves it as it was. */
  method SerializeDocInPlace(doc: Record?) returns (r: Result<Record?, Error>)
    modifies doc
    ensures var spec := SerializeDoc(if doc == null then None else Some(old(doc.fields)));
            && (spec.Failure? <==> r.Failure?)
            && (r.Failure? ==> r.error == spec.error && doc.fields == old(doc.fields))
            && (spec == Success(None) ==> r == Success(null) && (doc != null ==> doc.fields == old(doc.fields)))
            && (spec.Success? && spec.value.Some? ==> r == Success(doc) && doc != null && doc.fields == spec.value.value)
  {
    if doc == null || doc.fields == map[] {
      return Success(null);
    }
    if "_id" !in doc.fields {
      return Failure(KeyError("_id"));
    }
    doc.fields := doc.fields["id" := VStr(PyStr(doc.fields["_id"]))];
    doc.fields := doc.fields - {"_id"};
    if "logo" in doc.fields && doc.fields["logo"].VBytes? {
      doc.fields := doc.fields["logo" := VStr(Base64.Encode(doc.fields["logo"].b))];
    }
    return Success(doc);
  }

  /** `serialize_subscriber_doc` as written, in place. */
  method SerializeSubscriberDocInPlace(doc: Record?) returns (r: Result<Record?, Error>)
    modifies doc
    ensures var spec := SerializeSubscriberDoc(if doc == null then None else Some(old(doc.fields)));
            && (spec.Failure? <==> r.Failure?)
            && (r.Failure? ==> r.error == spec.error && doc.fields == old(doc.fields))
            && (spec == Success(None) ==> r == Success(null) && (doc != null ==> doc.fields == old(doc.fields)))
            && (spec.Success? && spec.value.Some? ==> r == Success(doc) && doc != null && doc.fields == spec.value.value)
  {
    if doc == null || doc.fields == map[] {
      return Success(null);
    }
    if "_id" !in doc.fields {
      return Failure(KeyError("_id"));
    }
    doc.fields := doc.fields["id" := VStr(PyStr(doc.fields["_id"]))];
    doc.fields := doc.fields - {"_id"};
    return Success(doc);
  }
}
