/**
 * Decoded JSON documents, the dictionaries every record of the pipeline is, and the
 * dictionary operations the enrichers use on them.
 */
module Json {
  import opened Results
  import Text

  /** A document as json.loads (or the XML-to-dict reader) produces it. */
  datatype Value =
    | Null
    | Bool(b: bool)
    | Int(i: int)
    | Str(s: string)
    | Arr(items: seq<Value>)
    | Obj(fields: map<string, Value>)

  /** Python truthiness: None, False, 0, "" and empty containers are false. */
  predicate Truthy(v: Value) {
    match v
    case Null => false
    case Bool(b) => b
    case Int(i) => i != 0
    case Str(s) => s != ""
    case Arr(a) => a != []
    case Obj(m) => m != map[]
  }

  /** A value Python's `in` can test: a dict, a str or a list (any other kind raises TypeError). */
  predicate Testable(v: Value) {
    v.Obj? || v.Str? || v.Arr?
  }

  /** Python's `key in v`: a key test on a dict, a substring test on a str, a membership test on a list. */
  predicate KeyIn(key: string, v: Value)
    requires Testable(v)
  {
    match v
    case Obj(m) => key in m
    case Str(s) => Text.Contains(s, key)
    case Arr(items) => Str(key) in items
  }

  /** `d[k] if k in d else None`. */
  function Get(d: map<string, Value>, k: string): Value {
    if k in d then d[k] else Null
  }

  /** `d[k]`, raising KeyError when k is absent. */
  function Field(d: map<string, Value>, k: string): Result<Value> {
    if k in d then Ok(d[k]) else Err(KeyError(k))
  }

  /** `v[k]` where v has to be a dict. */
  function Member(v: Value, k: string): Result<Value> {
    if v.Obj? then Field(v.fields, k) else Err(TypeError)
  }

  /**
   * `v[0]`: the first item of a list or the first character of a str (IndexError when
   * empty), KeyError on a dict (a decoded dict has only str keys), TypeError otherwise.
   */
  function First(v: Value): Result<Value> {
    match v
    case Arr(items) => if |items| == 0 then Err(IndexError) else Ok(items[0])
    case Str(s) => if |s| == 0 then Err(IndexError) else Ok(Str([s[0]]))
    case Obj(_) => Err(IntKeyError(0))
    case _ => Err(TypeError)
  }

  /** `v` used where a str is needed (concatenation, str methods). */
  function AsStr(v: Value): Result<string> {
    if v.Str? then Ok(v.s) else Err(TypeError)
  }

  /** `v` used where a dict is needed. */
  function AsObj(v: Value): Result<map<string, Value>> {
    if v.Obj? then Ok(v.fields) else Err(TypeError)
  }

  /** `v` iterated over as a list. */
  function AsList(v: Value): Result<seq<Value>> {
    if v.Arr? then Ok(v.items) else Err(TypeError)
  }

  /** `len(v)` on a str, list or dict. */
  function Len(v: Value): Result<nat> {
    match v
    case Str(s) => Ok(|s|)
    case Arr(a) => Ok(|a|)
    case Obj(m) => Ok(|m.Keys|)
    case _ => Err(TypeError)
  }

  /**
   * `'%s' % v`, that is str(v): a str is itself, None, True and False have fixed
   * spellings, and the repr of anything else is supplied by `repr`.
   */
  function Show(v: Value, repr: Value -> string): string {
    match v
    case Str(s) => s
    case Null => "None"
    case Bool(b) => if b then "True" else "False"
    case _ => repr(v)
  }

  /**
   * The loop `for f in fields: eitem[prefix + f] = src[f] if f in src else None`:
   * one key per field, holding the field's value or None.
   */
  function Copied(src: map<string, Value>, fields: seq<string>, prefix: string): (r: map<string, Value>)
    ensures r.Keys == set f | f in fields :: prefix + f
    ensures forall f :: f in fields ==> r[prefix + f] == Get(src, f)
    decreases |fields|
  {
    if fields == [] then map[]
    else
      var last := fields[|fields| - 1];
      var r := Copied(src, fields[..|fields| - 1], prefix)[prefix + last := Get(src, last)];
      assert forall f :: f in fields ==> f in fields[..|fields| - 1] || f == last;
      assert forall f :: prefix + f == prefix + last ==> f == last by {
        forall f | prefix + f == prefix + last ensures f == last {
          assert f == (prefix + f)[|prefix|..];
        }
      }
      r
  }

  /** One more field copied: its key holds the field's value or None. */
  lemma CopiedStep(src: map<string, Value>, fields: seq<string>, prefix: string, k: nat)
    requires k < |fields|
    ensures Copied(src, fields[..k + 1], prefix) == Copied(src, fields[..k], prefix)[prefix + fields[k] := Get(src, fields[k])]
  {
    assert fields[..k + 1][..k] == fields[..k];
  }

  /** Copying without a prefix keeps the field names. */
  lemma CopiedPlain(src: map<string, Value>, fields: seq<string>)
    ensures var r := Copied(src, fields, "");
      r.Keys == (set f | f in fields) && forall f :: f in fields ==> r[f] == Get(src, f)
  {
    assert forall f: string :: "" + f == f;
  }

  /** Which keys a prefixed copy has: the prefix followed by one of the fields. */
  lemma CopiedKeyOf(src: map<string, Value>, fields: seq<string>, prefix: string, k: string)
    ensures k in Copied(src, fields, prefix) <==>
      |prefix| <= |k| && k[..|prefix|] == prefix && k[|prefix|..] in fields
  {
    if k in Copied(src, fields, prefix) {
      var f :| f in fields && k == prefix + f;
      assert k[..|prefix|] == prefix && k[|prefix|..] == f;
    }
    if |prefix| <= |k| && k[..|prefix|] == prefix && k[|prefix|..] in fields {
      assert k == prefix + k[|prefix|..];
    }
  }

  /** Every entry of `sub` is an entry of `m`. */
  predicate Extends(m: map<string, Value>, sub: map<string, Value>) {
    forall k :: k in sub ==> k in m && m[k] == sub[k]
  }

  /** Setting a key outside `sub` keeps `sub`. */
  lemma ExtendsSet(m: map<string, Value>, sub: map<string, Value>, k: string, v: Value)
    requires Extends(m, sub) && k !in sub
    ensures Extends(m[k := v], sub)
  {
  }

  /** `m.update(n)` keeps what of `m` the keys of `n` do not touch, and all of `n`. */
  lemma ExtendsUpdate(m: map<string, Value>, n: map<string, Value>, sub: map<string, Value>)
    requires Extends(m, sub) && forall k :: k in n ==> k !in sub
    ensures Extends(m + n, sub) && Extends(m + n, n)
  {
  }

  /** The copy loop itself, building the dict one field at a time. */
  method CopyFields(src: map<string, Value>, fields: seq<string>, prefix: string) returns (r: map<string, Value>)
    ensures r == Copied(src, fields, prefix)
  {
    r := map[];
    var k := 0;
    while k < |fields|
      invariant 0 <= k <= |fields|
      invariant r == Copied(src, fields[..k], prefix)
    {
      assert fields[..k + 1][..k] == fields[..k];
      r := r[prefix + fields[k] := Get(src, fields[k])];
      k := k + 1;
    }
    assert fields[..|fields|] == fields;
  }

  /**
   * The copy loop `eitem[prefix + f] = v[f] if f in v else None` on any kind of v: a dict
   * gives its copy; on a str or a list a field found by `in` is indexed with a str, a
   * TypeError, and with none found every field is None; on any other kind `in` raises.
   */
  function CopiedFrom(v: Value, fields: seq<string>, prefix: string): Result<map<string, Value>> {
    if v.Obj? then Ok(Copied(v.fields, fields, prefix))
    else if !Testable(v) then Err(TypeError)
    else if !NoneIn(fields, v) then Err(TypeError)
    else Ok(Copied(map[], fields, prefix))
  }

  /** That copy loop, testing each field with `in`. */
  method CopyFieldsFrom(v: Value, fields: seq<string>, prefix: string) returns (r: Result<map<string, Value>>)
    ensures r == CopiedFrom(v, fields, prefix)
  {
    if v.Obj? {
      var u := CopyFields(v.fields, fields, prefix);
      return Ok(u);
    }
    if !Testable(v) {
      return Err(TypeError);
    }
    var u := map[];
    var k := 0;
    while k < |fields|
      invariant 0 <= k <= |fields|
      invariant NoneIn(fields[..k], v)
      invariant u == Copied(map[], fields[..k], prefix)
    {
      CopiedStep(map[], fields, prefix, k);
      if KeyIn(fields[k], v) {
        return Err(TypeError);
      }
      NoneInSnoc(fields, k, v);
      u := u[prefix + fields[k] := Null];
      k := k + 1;
    }
    assert fields[..k] == fields;
    r := Ok(u);
  }

  /** No field is found in v by `in`. */
  predicate NoneIn(fields: seq<string>, v: Value)
    requires Testable(v)
  {
    forall j :: 0 <= j < |fields| ==> !KeyIn(fields[j], v)
  }

  lemma NoneInSnoc(fields: seq<string>, k: nat, v: Value)
    requires Testable(v) && k < |fields| && NoneIn(fields[..k], v) && !KeyIn(fields[k], v)
    ensures NoneIn(fields[..k + 1], v)
  {
    assert forall j :: 0 <= j < k ==> fields[..k + 1][j] == fields[..k][j];
  }

  /** A dict that the code changes in place (`item[...] = ...`). */
  class Document {
    var fields: map<string, Value>

    constructor (fields: map<string, Value>)
      ensures this.fields == fields
    {
      this.fields := fields;
    }
  }

  /** The Sorting Hat identity dict `{username, name, email}`; None is `Null`. */
  datatype Identity = Identity(username: Value, name: Value, email: Value)

  /** The identity with all three components None. */
  const NoIdentity := Identity(Null, Null, Null)
}
