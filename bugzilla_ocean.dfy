/**
 * The Bugzilla ocean feeder's hooks: the unique id written into every raw item
 * before it is stored, and the last-update lookup it delegates to the store.
 */
module BugzillaOcean {
  import opened Results
  import opened Json

  /** get_field_unique_id: the key _fix_item writes. */
  const FieldUniqueId := "ocean-unique-id"

  /** `item["data"]["bug_id"][0]['__text__'] + "_" + item['origin']`. */
  function UniqueId(item: map<string, Value>): (r: Result<string>)
    ensures r.Ok? ==> "data" in item && "origin" in item && item["origin"].Str?
    ensures r.Ok? ==> BugText(item).Ok? && r.value == BugText(item).value + "_" + item["origin"].s
    ensures r.Err? <==> BugText(item).Err? || "origin" !in item || !item["origin"].Str?
  {
    var bug :- BugText(item);
    var originV :- Field(item, "origin");
    var origin :- AsStr(originV);
    Ok(bug + "_" + origin)
  }

  /** The text of the first bug id of the item's data, which has to be a str. */
  function BugText(item: map<string, Value>): Result<string> {
    var data :- Field(item, "data");
    var ids :- Member(data, "bug_id");
    var first :- First(ids);
    var text :- Member(first, "__text__");
    AsStr(text)
  }

  /** The item after _fix_item. */
  function Fixed(item: map<string, Value>): Result<map<string, Value>> {
    var id :- UniqueId(item);
    Ok(item[FieldUniqueId := Str(id)])
  }

  /** _fix_item adds the unique id and changes no other key. */
  lemma FixedKeeps(item: map<string, Value>)
    requires Fixed(item).Ok?
    ensures var f := Fixed(item).value;
      f.Keys == item.Keys + {FieldUniqueId} && f[FieldUniqueId] == Str(UniqueId(item).value) &&
      forall k :: k in item && k != FieldUniqueId ==> f[k] == item[k]
  {
  }

  /** The unique id is read from keys _fix_item does not write. */
  lemma UniqueIdIgnoresOwnKey(item: map<string, Value>, v: Value)
    ensures UniqueId(item[FieldUniqueId := v]) == UniqueId(item)
  {
    var m := item[FieldUniqueId := v];
    assert Field(m, "data") == Field(item, "data");
    assert Field(m, "origin") == Field(item, "origin");
  }

  /** _fix_item is idempotent: a fixed item is fixed again to itself. */
  lemma FixedIdempotent(item: map<string, Value>)
    requires Fixed(item).Ok?
    ensures Fixed(Fixed(item).value) == Fixed(item)
  {
    var v := Str(UniqueId(item).value);
    UniqueIdIgnoresOwnKey(item, v);
    assert item[FieldUniqueId := v][FieldUniqueId := v] == item[FieldUniqueId := v];
  }

  /** The id of bug 42 fed from `https://bz` is `42_https://bz`. */
  lemma UniqueIdExample()
    ensures UniqueId(map["data" := Obj(map["bug_id" := Arr([Obj(map["__text__" := Str("42")])])]), "origin" := Str("https://bz")])
      == Ok("42_https://bz")
  {
    var data := Obj(map["bug_id" := Arr([Obj(map["__text__" := Str("42")])])]);
    var item := map["data" := data, "origin" := Str("https://bz")];
    assert BugText(item) == Ok("42");
    assert Field(item, "origin") == Ok(Str("https://bz"));
    assert "42" + "_" + "https://bz" == "42_https://bz";
  }

  /** _fix_item as the code runs it, on the item in place; an exception leaves the item unchanged. */
  method FixItem(item: Document) returns (fault: Option<Fault>)
    modifies item
    ensures fault.None? <==> Fixed(old(item.fields)).Ok?
    ensures fault.None? ==> item.fields == Fixed(old(item.fields)).value
    ensures fault.Some? ==> item.fields == old(item.fields) && Err(fault.value) == UniqueId(old(item.fields))
  {
    var id := UniqueId(item.fields);
    if id.Err? {
      return Some(id.fault);
    }
    item.fields := item.fields[FieldUniqueId := Str(id.value)];
    fault := None;
  }

  /** get_field_unique_id names the key that _fix_item writes the id under. */
  function GetFieldUniqueId(): (r: string)
    ensures forall item :: Fixed(item).Ok? ==> r in Fixed(item).value && Fixed(item).value[r] == Str(UniqueId(item).value)
  {
    FieldUniqueId
  }

  /**
   * get_last_update_from_es: the store's last date for the date field and filter,
   * passed on unchanged, None included.
   */
  function LastUpdate(lastDate: (string, Value) -> Value, fieldDate: string, filter: Value): (r: Value)
    ensures r == Null <==> lastDate(fieldDate, filter) == Null
    ensures r == lastDate(fieldDate, filter)
  {
    var lastUpdate := lastDate(fieldDate, filter);
    if lastUpdate != Null then lastUpdate else lastUpdate
  }
}
