/**
 * The key-value store the engine shares between job outcomes and step
 * records: string keys with an optional expiry, hash records, and MULTI
 * batches of hash writes.
 */
module KeyValue {
  import opened Outcomes

  /** The fields of a hash record, all text. */
  type Fields = map<string, string>

  /** What a key holds: text with an optional expiry in seconds, or a hash record. */
  datatype Entry = Text(text: string, ttl: Option<nat>) | Hash(fields: Fields)

  /** A hash write queued in a MULTI batch. */
  datatype Command =
    | HSet(key: string, field: string, value: string)
    | HMSet(key: string, fields: Fields)

  /** The hash record at `key`; a missing key reads as an empty record. */
  function FieldsAt(data: map<string, Entry>, key: string): Fields {
    if key in data && data[key].Hash? then data[key].fields else map[]
  }

  /**
   * One command of a batch. A hash command addressed to a key that holds text
   * fails with WRONGTYPE; inside MULTI the other commands still run.
   */
  function Apply(data: map<string, Entry>, c: Command): (r: map<string, Entry>)
    ensures r.Keys == data.Keys + {c.key}
    ensures forall k :: k in data && k != c.key ==> r[k] == data[k]
  {
    if c.key in data && data[c.key].Text? then data
    else
      match c
      case HSet(k, f, v) => data[k := Hash(FieldsAt(data, k)[f := v])]
      case HMSet(k, fs) => data[k := Hash(FieldsAt(data, k) + fs)]
  }

  /** A MULTI batch, applied in order. */
  function ApplyAll(data: map<string, Entry>, cmds: seq<Command>): map<string, Entry>
    decreases |cmds|
  {
    if cmds == [] then data else ApplyAll(Apply(data, cmds[0]), cmds[1..])
  }

  /** A batch changes no key that none of its commands names. */
  lemma {:induction false} ApplyAllFrame(data: map<string, Entry>, cmds: seq<Command>, key: string)
    requires forall i :: 0 <= i < |cmds| ==> cmds[i].key != key
    ensures key in ApplyAll(data, cmds) <==> key in data
    ensures key in data ==> ApplyAll(data, cmds)[key] == data[key]
    decreases |cmds|
  {
    if cmds != [] {
      ApplyAllFrame(Apply(data, cmds[0]), cmds[1..], key);
    }
  }

  /** The keys a batch addresses. */
  function CommandKeys(cmds: seq<Command>): set<string> {
    if cmds == [] then {} else {cmds[0].key} + CommandKeys(cmds[1..])
  }

  /** A batch only adds the keys its commands name. */
  lemma {:induction false} ApplyAllKeys(data: map<string, Entry>, cmds: seq<Command>)
    ensures ApplyAll(data, cmds).Keys == data.Keys + CommandKeys(cmds)
    decreases |cmds|
  {
    if cmds != [] {
      ApplyAllKeys(Apply(data, cmds[0]), cmds[1..]);
    }
  }

  class Store {
    var data: map<string, Entry>

    constructor ()
      ensures data == map[]
    {
      data := map[];
    }

    /** SET: the key holds the text, with no expiry, whatever it held before. */
    method Set(key: string, text: string)
      modifies this
      ensures data == old(data)[key := Text(text, None)]
    {
      data := data[key := Text(text, None)];
    }

    /** SETEX: the key holds the text and expires after `seconds`. */
    method SetEx(key: string, seconds: nat, text: string)
      modifies this
      ensures data == old(data)[key := Text(text, Some(seconds))]
    {
      data := data[key := Text(text, Some(seconds))];
    }

    /** DEL: the key no longer exists; nothing else changes. */
    method Del(key: string)
      modifies this
      ensures data == old(data) - {key}
    {
      data := data - {key};
    }

    /** HGETALL: the record at `key`, empty when the key is missing; WRONGTYPE when it holds text. */
    function HGetAll(key: string): (r: Result<Fields>)
      reads this
      ensures key !in data ==> r == Success(map[])
      ensures r.Failure? <==> key in data && data[key].Text?
      ensures r.Success? ==> r.value == FieldsAt(data, key)
    {
      if key in data && data[key].Text? then Failure(WrongType) else Success(FieldsAt(data, key))
    }

    /** MULTI ... EXEC: the commands are applied in order, as one batch. */
    method Exec(cmds: seq<Command>)
      modifies this
      ensures data == ApplyAll(old(data), cmds)
    {
      var i := 0;
      while i < |cmds|
        invariant 0 <= i <= |cmds|
        invariant ApplyAll(data, cmds[i..]) == ApplyAll(old(data), cmds)
      {
        assert cmds[i..][1..] == cmds[i + 1..];
        data := Apply(data, cmds[i]);
        i := i + 1;
      }
    }
  }

  const WrongType := "WRONGTYPE Operation against a key holding the wrong kind of value"
}
