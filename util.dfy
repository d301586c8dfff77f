/**
 * The step-record codec of lib/util.js: `serialize` flattens a task template
 * into a record whose object-valued fields are JSON text, and `deserialize`
 * decodes a record read from the store, parsing only `param` and `result`.
 */
module Util {
  import opened Outcomes
  import opened Json

  /** A structured record: a task template, or a step record decoded from the store. */
  type Doc = map<string, Value>

  /** A record as the store keeps it: every field is text. */
  type Flat = map<string, string>

  /** The two fields that `deserialize` parses as JSON. */
  predicate IsParsedField(k: string) {
    k == "param" || k == "result"
  }

  /** `serialize`: every object-valued field becomes its JSON text; every other field is kept. */
  function Serialize(doc: Doc): (r: Doc)
    ensures r.Keys == doc.Keys
    ensures forall k :: k in r ==> !IsObject(r[k])
    ensures forall k :: k in doc && !IsObject(doc[k]) ==> r[k] == doc[k]
    ensures forall k :: k in doc && IsObject(doc[k]) ==> r[k] == Str(Stringify(doc[k]))
  {
    map k | k in doc :: if IsObject(doc[k]) then Str(Stringify(doc[k])) else doc[k]
  }

  /** The JSON text `serialize` writes for an object-valued field parses back to the field's value. */
  lemma SerializedObjectsParse(doc: Doc)
    ensures forall k :: k in doc && IsObject(doc[k]) ==> Parse(Serialize(doc)[k].s) == Some(doc[k])
  {
    forall k | k in doc && IsObject(doc[k]) ensures Parse(Serialize(doc)[k].s) == Some(doc[k]) {
      ParseStringify(doc[k]);
    }
  }

  /** The text the store client sends for a command argument: null as the empty string, anything else as String(v). */
  function StoreText(v: Value): string {
    if v.Null? then "" else ToText(v)
  }

  /** The text a field's value becomes in the stored record: JSON for objects, the client's text otherwise. */
  function StoredText(v: Value): string {
    if IsObject(v) then Stringify(v) else StoreText(v)
  }

  /** How the store client writes a record: every value as its argument text. */
  function StoreForm(doc: Doc): (r: Flat)
    ensures r.Keys == doc.Keys
    ensures forall k :: k in doc ==> r[k] == StoreText(doc[k])
  {
    map k | k in doc :: StoreText(doc[k])
  }

  /** Whether `deserialize` would throw: `param` or `result` is present and is not JSON text. */
  predicate Unparsable(flat: Flat) {
    exists k :: k in flat && IsParsedField(k) && Parse(flat[k]).None?
  }

  /**
   * `deserialize`: `param` and `result` are parsed as JSON, every other field is
   * kept as text; None where JSON.parse would throw.
   */
  function Deserialize(flat: Flat): (r: Option<Doc>)
    ensures r.None? <==> Unparsable(flat)
    ensures r.Some? ==> r.value.Keys == flat.Keys
  {
    if ("param" in flat && Parse(flat["param"]).None?) || ("result" in flat && Parse(flat["result"]).None?) then
      None
    else
      Some(map k | k in flat :: if IsParsedField(k) then Parse(flat[k]).value else Str(flat[k]))
  }

  /**
   * What `deserialize` does: it fails exactly when `param` or `result` is not
   * JSON text; otherwise it keeps every key, parses those two fields and keeps
   * every other field as text.
   */
  lemma DeserializeFields(flat: Flat)
    ensures var r := Deserialize(flat);
      && (r.None? <==> Unparsable(flat))
      && (r.Some? ==> r.value.Keys == flat.Keys)
      && (r.Some? ==> forall k :: k in flat && !IsParsedField(k) ==> r.value[k] == Str(flat[k]))
      && (r.Some? ==> forall k :: k in flat && IsParsedField(k) ==> Parse(flat[k]) == Some(r.value[k]))
  {
  }

  /**
   * A value whose stored text JSON.parse reads back as the value itself:
   * anything but a plain string, and anything but null, which is stored as
   * the empty string.
   */
  predicate Revivable(v: Value) {
    !v.Str? && !v.Null?
  }

  /**
   * The document a stored record reads back as: `param` and `result` as they
   * were, every other field as the text the store kept for it.
   */
  function Restored(doc: Doc): (r: Doc)
    ensures r.Keys == doc.Keys
  {
    map k | k in doc :: if IsParsedField(k) then doc[k] else Str(StoredText(doc[k]))
  }

  /** The stored text of a revivable field parses back to the field's value. */
  lemma ParsedFieldParses(doc: Doc, k: string)
    requires k in doc && Revivable(doc[k])
    ensures Parse(StoreForm(Serialize(doc))[k]) == Some(doc[k])
  {
    if IsObject(doc[k]) {
      SerializedObjectsParse(doc);
    } else {
      ToTextIsJsonOfScalar(doc[k]);
      assert StoreForm(Serialize(doc))[k] == Stringify(doc[k]);
      ParseStringify(doc[k]);
    }
  }

  /** The stored text of a revivable `param` or `result` parses back to the field's value. */
  lemma ParsedFieldsParse(doc: Doc)
    requires forall k :: k in doc && IsParsedField(k) ==> Revivable(doc[k])
    ensures forall k :: k in doc && IsParsedField(k) ==> Parse(StoreForm(Serialize(doc))[k]) == Some(doc[k])
  {
    forall k | k in doc && IsParsedField(k)
      ensures Parse(StoreForm(Serialize(doc))[k]) == Some(doc[k])
    {
      ParsedFieldParses(doc, k);
    }
  }

  /**
   * The round trip through the store: a record whose `param` and `result` are
   * neither plain strings nor null reads back as `Restored(doc)`.
   */
  lemma DeserializeSerialize(doc: Doc)
    requires forall k :: k in doc && IsParsedField(k) ==> Revivable(doc[k])
    ensures Deserialize(StoreForm(Serialize(doc))) == Some(Restored(doc))
  {
    var flat := StoreForm(Serialize(doc));
    ParsedFieldsParse(doc);
    DeserializeFields(flat);
    var r := Deserialize(flat).value;
    forall k | k in doc ensures r[k] == Restored(doc)[k] {
      if !IsParsedField(k) {
        assert flat[k] == StoredText(doc[k]);
      }
    }
    assert r == Restored(doc);
  }

  /**
   * Object-valued fields other than `param` and `result` are not revived:
   * after the round trip they are still their JSON text.
   */
  lemma OtherObjectsStayText(doc: Doc, k: string)
    requires forall f :: f in doc && IsParsedField(f) ==> Revivable(doc[f])
    requires k in doc && !IsParsedField(k) && IsObject(doc[k])
    ensures Deserialize(StoreForm(Serialize(doc))) == Some(Restored(doc))
    ensures Restored(doc)[k] == Str(Stringify(doc[k]))
  {
    DeserializeSerialize(doc);
  }

  /** An empty record, what the store gives for a missing step, decodes to an empty record: no `idx`. */
  lemma DeserializeEmpty()
    ensures Deserialize(map[]) == Some(map[])
  {
  }

  /**
   * A string-valued `param` is stored raw and read back as JSON text: reading
   * throws when the string is not JSON text, and otherwise `param` comes back
   * as what the string parses to, not as the string.
   */
  lemma StringParamIsParsed(doc: Doc, s: string)
    requires "param" in doc && doc["param"] == Str(s)
    ensures var r := Deserialize(StoreForm(Serialize(doc)));
      && (Parse(s).None? ==> r.None?)
      && (r.Some? ==> Parse(s).Some? && r.value["param"] == Parse(s).value)
      && (Parse(s).Some? && ("result" in doc ==> Revivable(doc["result"])) ==> r.Some?)
  {
    var flat := StoreForm(Serialize(doc));
    assert flat["param"] == s;
    DeserializeFields(flat);
    if "result" in doc && Revivable(doc["result"]) {
      ParsedFieldParses(doc, "result");
    }
  }

  /** A null `param` or `result` is stored as the empty string, which JSON.parse refuses: reading the record throws. */
  lemma NullParsedFieldFails(doc: Doc, k: string)
    requires k in doc && IsParsedField(k) && doc[k] == Null
    ensures Deserialize(StoreForm(Serialize(doc))).None?
  {
    var flat := StoreForm(Serialize(doc));
    assert flat[k] == "";
    DeserializeFields(flat);
  }
}
