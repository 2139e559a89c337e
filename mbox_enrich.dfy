/**
 * The mailing-list enricher: the Sorting Hat identity read from a `From` header,
 * the sender's domain, the project of the list, the enriched message and the
 * bulk load of enriched messages.
 */
module MboxEnrich {
  import opened Results
  import opened Text
  import opened Json
  import opened Bulk

  /** get_field_date, get_field_unique_id and get_fields_uuid. */
  const FieldDate := "metadata__updated_on"
  const FieldUniqueId := "ocean-unique-id"
  const FieldsUuid := ["from_uuid"]

  /** The spellings of '@' that archives use to hide addresses, tried in this order. */
  const Patterns := [" at ", "_at_", " en "]

  /** The header fields copied unchanged into the enriched message. */
  const MailFields := ["Date", "Delivered-To", "From", "Subject", "message-id", "ocean-unique-id"]

  /** The roles get_identities looks at. */
  const Roles := ["From"]

  // ---------------------------------------------------------------------------
  // get_sh_identity
  // ---------------------------------------------------------------------------

  /** One de-obfuscation step: `if s.find(p) != -1: s = s.replace(p, '@')`. */
  function Unmasked(s: string, p: string): string
    requires |p| > 0
  {
    if Find(s, p).Some? then Replace(s, p, "@") else s
  }

  predicate NonEmptyAll(pats: seq<string>) {
    forall i :: 0 <= i < |pats| ==> |pats[i]| > 0
  }

  /** The header after every pattern of `pats` has had its turn, first to last. */
  function Deobfuscated(s: string, pats: seq<string>): string
    requires NonEmptyAll(pats)
    decreases |pats|
  {
    if pats == [] then s else Deobfuscated(Unmasked(s, pats[0]), pats[1..])
  }

  /** The pattern loop of get_sh_identity. */
  method Deobfuscate(s: string) returns (r: string)
    ensures r == Deobfuscated(s, Patterns)
  {
    var pats := Patterns;
    r := s;
    var k := 0;
    assert pats[0..] == pats;
    while k < |pats|
      invariant 0 <= k <= |pats|
      invariant Deobfuscated(r, pats[k..]) == Deobfuscated(s, pats)
    {
      var p := pats[k];
      assert pats[k..][0] == p && pats[k..][1..] == pats[k + 1..];
      if Find(r, p).Some? {
        r := Replace(r, p, "@");
      }
      k := k + 1;
    }
  }

  /** The find guard changes nothing: a pattern that is absent is not replaced anyway. */
  lemma UnmaskedIsReplace(s: string, p: string)
    requires |p| > 0
    ensures Unmasked(s, p) == Replace(s, p, "@")
  {
    if Find(s, p).None? {
      ReplaceAbsent(s, p, "@");
    }
  }

  /** The three patterns, one after the other. */
  lemma DeobfuscatedSteps(s: string)
    ensures Deobfuscated(s, Patterns) == Unmasked(Unmasked(Unmasked(s, " at "), "_at_"), " en ")
  {
    var p := Patterns;
    assert p[1..] == ["_at_", " en "] && p[1..][1..] == [" en "] && p[1..][1..][1..] == [];
  }

  /** De-obfuscation is the chain of the three str.replace calls. */
  lemma DeobfuscatedReplaces(s: string)
    ensures Deobfuscated(s, Patterns) == Replace(Replace(Replace(s, " at ", "@"), "_at_", "@"), " en ", "@")
  {
    DeobfuscatedSteps(s);
    var s1 := Unmasked(s, " at ");
    var s2 := Unmasked(s1, "_at_");
    UnmaskedIsReplace(s, " at ");
    UnmaskedIsReplace(s1, "_at_");
    UnmaskedIsReplace(s2, " en ");
  }

  /** `n.replace("(", "").replace(")", "")`. */
  function Unbracketed(n: string): string {
    Replace(Replace(n, "(", ""), ")", "")
  }

  /** get_sh_identity: the address before the first space and the name after it. */
  function ShIdentity(from: string): Identity {
    var pieces := SplitOnce(Deobfuscated(from, Patterns), " ");
    Identity(Null, if |pieces| == 2 then Str(Unbracketed(pieces[1])) else Null, Str(pieces[0]))
  }

  /** get_sh_identity as the code runs it. */
  method GetShIdentity(from: string) returns (identity: Identity)
    ensures identity == ShIdentity(from)
  {
    var text := Deobfuscate(from);
    var fieldsFrom := SplitOnce(text, " ");
    var name := Null;
    if |fieldsFrom| == 2 {
      name := Str(Replace(Replace(fieldsFrom[1], "(", ""), ")", ""));
    }
    identity := Identity(Null, name, Str(fieldsFrom[0]));
  }

  /**
   * No username; the email is the de-obfuscated header up to its first space and has
   * no space; without a space there is no name, otherwise the name is the rest with
   * every bracket removed.
   */
  lemma ShIdentityShape(from: string)
    ensures var i := ShIdentity(from);
      var t := Deobfuscated(from, Patterns);
      i.username == Null && i.email.Str? && ' ' !in i.email.s &&
      (i.name == Null <==> ' ' !in t) &&
      (i.name == Null ==> i.email.s == t) &&
      (i.name.Str? ==> (
        |i.email.s| < |t| && t[..|i.email.s|] == i.email.s && t[|i.email.s|] == ' ' &&
        i.name.s == Unbracketed(t[|i.email.s| + 1..]) &&
        '(' !in i.name.s && ')' !in i.name.s))
  {
    var t := Deobfuscated(from, Patterns);
    var pieces := SplitOnce(t, " ");
    ContainsChar(t, ' ');
    ContainsChar(pieces[0], ' ');
    if |pieces| == 2 {
      var e, rest := pieces[0], pieces[1];
      assert t == e + " " + rest;
      assert t[..|e|] == e && t[|e|] == ' ' && t[|e| + 1..] == rest;
      var once := Replace(rest, "(", "");
      ReplaceCharGone(rest, '(', "");
      ReplaceKeepsOut(once, ")", "", '(');
      ReplaceCharGone(once, ')', "");
    }
  }

  /** A host and a bracketed name after `at`: the shape of the example `user at host (Name)`. */
  lemma AddressWords(h: string, m: string, c: char)
    requires ' ' !in h && c != '(' && c != ')' && NoWordStarts(m, c)
    ensures NoWordStarts(h + " (" + m + ")", c)
  {
    NoWordStartsJoin(h, " (", c);
    NoWordStartsJoin(h + " (", m, c);
    NoWordStartsJoin(h + " (" + m, ")", c);
  }

  /** Replacing the first occurrence of a pattern, after a text lacking its first character. */
  lemma UnmaskedAfterFree(a: string, p: string, rest: string)
    requires |p| > 0 && p[0] !in a && !Contains(rest, p)
    ensures Unmasked(a + p + rest, p) == a + "@" + rest
  {
    ReplaceAbsent(rest, p, "@");
    ReplaceAfterFree(a, p, "@", rest);
    FindAfterText(a, p, rest);
  }

  /** `user at rest` de-obfuscates to `user@rest` when nothing else looks like a pattern. */
  lemma DeobfuscatedAt(u: string, rest: string)
    requires ' ' !in u && '_' !in u && '_' !in rest
    requires NoWordStarts(rest, 'a') && NoWordStarts(rest, 'e')
    ensures Deobfuscated(u + " at " + rest, Patterns) == u + "@" + rest
  {
    NoWordStartsFree(rest, " at ");
    UnmaskedAfterFree(u, " at ", rest);
    var s1 := u + "@" + rest;
    FreeOfHead(s1, "_at_");
    NoWordStartsJoin(u + "@", rest, 'e');
    NoWordStartsFree(s1, " en ");
    DeobfuscatedSteps(u + " at " + rest);
  }

  /** Removing the brackets around a name that has none inside. */
  lemma UnbracketedWrapped(m: string)
    requires '(' !in m && ')' !in m
    ensures Unbracketed("(" + m + ")") == m
  {
    var tail := m + ")";
    ReplaceAfterFree([], "(", "", tail);
    assert [] + "(" + tail == "(" + m + ")";
    ReplaceFree(tail, "(", "");
    assert Replace("(" + m + ")", "(", "") == tail;
    ReplaceAfterFree(m, ")", "", []);
    assert m + ")" + [] == tail;
    assert m + "" + Replace([], ")", "") == m;
  }

  /** The example `user at host (Name)`: address `user@host`, name `Name`. */
  lemma ShIdentityObfuscated(u: string, h: string, m: string)
    requires ' ' !in u && ' ' !in h && '_' !in u && '_' !in h && '_' !in m
    requires '(' !in m && ')' !in m && NoWordStarts(m, 'a') && NoWordStarts(m, 'e')
    ensures ShIdentity(u + " at " + h + " (" + m + ")") == Identity(Null, Str(m), Str(u + "@" + h))
  {
    var name := "(" + m + ")";
    var rest := h + " " + name;
    assert u + " at " + h + " (" + m + ")" == u + " at " + rest;
    AddressWords(h, m, 'a');
    AddressWords(h, m, 'e');
    assert h + " (" + m + ")" == rest;
    DeobfuscatedAt(u, rest);
    var a := u + "@" + h;
    var t := a + [' '] + name;
    assert u + "@" + rest == t;
    FindAfterFree(a, ' ', name);
    assert t[..|a|] == a && t[|a| + 1..] == name;
    UnbracketedWrapped(m);
  }

  /** The header quoted beside get_sh_identity, in its three parts. */
  lemma ExampleParts(u: string, h: string, m: string)
    requires u == "hwalsh" && h == "wikiledia.net" && m == "Heat Walsh"
    ensures u + " at " + h + " (" + m + ")" == "hwalsh at wikiledia.net (Heat Walsh)"
    ensures u + "@" + h == "hwalsh@wikiledia.net"
  {
  }

  lemma ExampleWords(u: string, h: string, m: string)
    requires u == "hwalsh" && h == "wikiledia.net" && m == "Heat Walsh"
    ensures ' ' !in u && ' ' !in h && '_' !in u && '_' !in h && '_' !in m
    ensures '(' !in m && ')' !in m && NoWordStarts(m, 'a') && NoWordStarts(m, 'e')
  {
  }

  /** The header quoted beside get_sh_identity. */
  lemma ShIdentityExample()
    ensures ShIdentity("hwalsh at wikiledia.net (Heat Walsh)") ==
      Identity(Null, Str("Heat Walsh"), Str("hwalsh@wikiledia.net"))
  {
    var u, h, m := "hwalsh", "wikiledia.net", "Heat Walsh";
    ExampleParts(u, h, m);
    ExampleWords(u, h, m);
    ShIdentityObfuscated(u, h, m);
  }

  // ---------------------------------------------------------------------------
  // get_identities
  // ---------------------------------------------------------------------------

  /** A header handed to get_sh_identity: anything but a str has no `find`. */
  function FromText(v: Value): Result<string> {
    if v.Str? then Ok(v.s) else Err(AttributeError)
  }

  /** get_identities: one identity when `From` is present and non-empty, otherwise none. */
  function Identities(item: map<string, Value>): (r: Result<seq<Identity>>)
    ensures r.Err? <==> "From" in item && Truthy(item["From"]) && !item["From"].Str?
    ensures r.Ok? ==> |r.value| <= 1
    ensures r.Ok? ==> (|r.value| == 1 <==> "From" in item && Truthy(item["From"]))
    ensures r.Ok? && |r.value| == 1 ==> r.value[0] == ShIdentity(item["From"].s)
  {
    if "From" in item && Truthy(item["From"]) then
      var text :- FromText(item["From"]);
      Ok([ShIdentity(text)])
    else Ok([])
  }

  /** The role loop of get_identities. */
  method GetIdentities(item: map<string, Value>) returns (r: Result<seq<Identity>>)
    ensures r == Identities(item)
  {
    var roles := Roles;
    var identities: seq<Identity> := [];
    var k := 0;
    while k < |roles|
      invariant 0 <= k <= |roles|
      invariant k == 0 ==> identities == []
      invariant k == 1 ==> Identities(item).Ok? && identities == Identities(item).value
    {
      var role := roles[k];
      if role in item && Truthy(item[role]) {
        if !item[role].Str? {
          return Err(AttributeError);
        }
        var user := GetShIdentity(item[role].s);
        identities := identities + [user];
      }
      k := k + 1;
    }
    r := Ok(identities);
  }

  // ---------------------------------------------------------------------------
  // get_item_sh
  // ---------------------------------------------------------------------------

  /** The Sorting Hat lookups: the uuid of an identity, and the bot flag of a uuid's profile (0 without one). */
  datatype SortingHat = SortingHat(uuid: Identity -> Value, bot: Value -> Value)

  /** `email.split("@")[1]`, or None on the IndexError of an address without '@'. */
  function Domain(email: string): Value {
    var parts := Split(email, "@");
    if |parts| >= 2 then Str(parts[1]) else Null
  }

  /** The domain is the text after the first '@' up to the next one, and None without '@'. */
  lemma DomainShape(email: string)
    ensures Domain(email) == Null <==> '@' !in email
    ensures Domain(email).Str? ==> (
      var i := Find(email, "@").value;
      var d := Domain(email).s;
      '@' !in email[..i] && email[i] == '@' && '@' !in d &&
      i + 1 + |d| <= |email| && email[i + 1..i + 1 + |d|] == d &&
      (i + 1 + |d| == |email| || email[i + 1 + |d|] == '@'))
  {
    ContainsChar(email, '@');
    SplitFirst(email, "@");
    if '@' in email {
      SplitSecondPiece(email, '@');
      var i := Find(email, "@").value;
      var tail := email[i + 1..];
      SplitHeadShape(tail, '@');
      var d := Split(tail, "@")[0];
      assert email[i + 1..i + 1 + |d|] == tail[..|d|];
    }
  }

  /** get_item_sh. */
  function ItemSh(item: map<string, Value>, sh: SortingHat): Result<map<string, Value>> {
    var from :- Field(item, "From");
    var text :- FromText(from);
    var identity := ShIdentity(text);
    var uuid := sh.uuid(identity);
    var eitem := map["from_uuid" := uuid, "from_bot" := sh.bot(uuid)];
    if Truthy(identity.email) then Ok(eitem["domain" := Domain(identity.email.s)]) else Ok(eitem)
  }

  /**
   * get_item_sh: the uuid and bot flag of the sender, and the domain of a non-empty
   * address; a missing `From` is a KeyError and a non-str one has no `find`.
   */
  lemma ItemShFields(item: map<string, Value>, sh: SortingHat)
    ensures var r := ItemSh(item, sh);
      (r.Err? <==> "From" !in item || !item["From"].Str?) &&
      (r.Ok? ==> (
        var identity := ShIdentity(item["From"].s);
        r.value.Keys == {"from_uuid", "from_bot"} + (if identity.email.s != "" then {"domain"} else {}) &&
        r.value["from_uuid"] == sh.uuid(identity) &&
        r.value["from_bot"] == sh.bot(sh.uuid(identity)) &&
        ("domain" in r.value ==> r.value["domain"] == Domain(identity.email.s))))
  {
  }

  // ---------------------------------------------------------------------------
  // get_item_project
  // ---------------------------------------------------------------------------

  /** `item['__metadata__']['origin']`. */
  function Origin(item: map<string, Value>): Result<Value> {
    var meta :- Field(item, "__metadata__");
    Member(meta, "origin")
  }

  /** The archive path of a list. */
  function MlsPath(list: string): string {
    "/mnt/mailman_archives/" + list + ".mbox/" + list + ".mbox"
  }

  /** Two lists never share an archive path, so each list has its own project entry. */
  lemma MlsPathInjective(a: string, b: string)
    requires MlsPath(a) == MlsPath(b)
    ensures a == b
  {
    var p := "/mnt/mailman_archives/";
    var x, y := ".mbox/", ".mbox";
    assert MlsPath(a) == p + a + x + a + y && MlsPath(b) == p + b + x + b + y;
    assert |a| == |b|;
    assert MlsPath(a)[|p|..|p| + |a|] == a;
    assert MlsPath(b)[|p|..|p| + |b|] == b;
  }

  /** get_item_project. */
  function ItemProject(item: map<string, Value>, prjs: map<string, map<string, Value>>): Result<map<string, Value>> {
    var origin :- Origin(item);
    var list :- AsStr(origin);
    var path := MlsPath(list);
    Ok(map["project" := if "mls" in prjs && path in prjs["mls"] then prjs["mls"][path] else Null])
  }

  /**
   * get_item_project: the project registered under "mls" for the list's archive path,
   * None when either lookup misses; a list that is not a str cannot be concatenated.
   */
  lemma ItemProjectCases(item: map<string, Value>, prjs: map<string, map<string, Value>>)
    ensures var r := ItemProject(item, prjs);
      (r.Ok? <==> Origin(item).Ok? && Origin(item).value.Str?) &&
      (Origin(item).Ok? && !Origin(item).value.Str? ==> r == Err(TypeError)) &&
      (r.Ok? ==> (
        var path := MlsPath(Origin(item).value.s);
        r.value.Keys == {"project"} &&
        ("mls" in prjs && path in prjs["mls"] ==> r.value["project"] == prjs["mls"][path]) &&
        ("mls" !in prjs || path !in prjs["mls"] ==> r.value["project"] == Null)))
  {
  }

  // ---------------------------------------------------------------------------
  // get_rich_item
  // ---------------------------------------------------------------------------

  /**
   * What the enricher is configured with: the date parser (text to ISO text, None when
   * it cannot parse), the Sorting Hat when enabled, the projects map, json.dumps and repr.
   */
  datatype Enricher = Enricher(
    parseIso: string -> Option<string>,
    sortingHat: Option<SortingHat>,
    prjsMap: map<string, map<string, Value>>,
    dumps: Value -> string,
    repr: Value -> string)

  /** `parser.parse(item["metadata__updated_on"]).isoformat()`. */
  function EmailDate(item: map<string, Value>, parseIso: string -> Option<string>): Result<Value> {
    var v :- Field(item, FieldDate);
    var text :- AsStr(v);
    match parseIso(text)
    case None => Err(DateError(text))
    case Some(d) => Ok(Str(d))
  }

  /** The enriched message before the optional Sorting Hat and project fields. */
  function BaseItem(item: map<string, Value>, date: Value, list: Value): map<string, Value> {
    Copied(item, MailFields, "")["email_date" := date]["list" := list]
  }

  /** `eitem.update(get_item_sh(item))` when the Sorting Hat is enabled. */
  function WithSh(eitem: map<string, Value>, item: map<string, Value>, sh: Option<SortingHat>): Result<map<string, Value>> {
    if sh.Some? then
      var more :- ItemSh(item, sh.value);
      Ok(eitem + more)
    else Ok(eitem)
  }

  /** `eitem.update(get_item_project(item))` when the projects map is non-empty. */
  function WithProject(eitem: map<string, Value>, item: map<string, Value>, prjs: map<string, map<string, Value>>): Result<map<string, Value>> {
    if prjs != map[] then
      var more :- ItemProject(item, prjs);
      Ok(eitem + more)
    else Ok(eitem)
  }

  /** get_rich_item. */
  function RichItem(item: map<string, Value>, e: Enricher): Result<map<string, Value>> {
    var date :- EmailDate(item, e.parseIso);
    var list :- Origin(item);
    var withSh :- WithSh(BaseItem(item, date, list), item, e.sortingHat);
    WithProject(withSh, item, e.prjsMap)
  }

  /** get_rich_item as the code runs it, copying field by field. */
  method GetRichItem(item: map<string, Value>, e: Enricher) returns (r: Result<map<string, Value>>)
    ensures r == RichItem(item, e)
  {
    var eitem := CopyFields(item, MailFields, "");
    var date := EmailDate(item, e.parseIso);
    if date.Err? {
      return Err(date.fault);
    }
    eitem := eitem["email_date" := date.value];
    var list := Origin(item);
    if list.Err? {
      return Err(list.fault);
    }
    eitem := eitem["list" := list.value];
    if e.sortingHat.Some? {
      var more := ItemSh(item, e.sortingHat.value);
      if more.Err? {
        return Err(more.fault);
      }
      eitem := eitem + more.value;
    }
    if e.prjsMap != map[] {
      var more := ItemProject(item, e.prjsMap);
      if more.Err? {
        return Err(more.fault);
      }
      eitem := eitem + more.value;
    }
    r := Ok(eitem);
  }

  /** The enrichment fails exactly when one of its lookups does. */
  lemma RichItemFails(item: map<string, Value>, e: Enricher)
    ensures RichItem(item, e).Err? <==>
      EmailDate(item, e.parseIso).Err? || Origin(item).Err? ||
      (e.sortingHat.Some? && ItemSh(item, e.sortingHat.value).Err?) ||
      (e.prjsMap != map[] && ItemProject(item, e.prjsMap).Err?)
    ensures FieldDate !in item ==> RichItem(item, e) == Err(KeyError(FieldDate))
  {
  }

  /** The keys the optional Sorting Hat and project updates may add. */
  const Added := {"from_uuid", "from_bot", "domain", "project"}

  /** The copied headers, the date and the list are none of the keys added after them. */
  lemma BaseKeysApart()
    ensures forall f :: f in MailFields ==> f !in Added && f != "email_date" && f != "list"
    ensures "email_date" !in Added && "list" !in Added
  {
  }

  /** The base message has the copied headers, the date and the list, and nothing else. */
  lemma BaseItemKeys(item: map<string, Value>, date: Value, list: Value)
    ensures BaseItem(item, date, list).Keys == (set f | f in MailFields) + {"email_date", "list"}
  {
    CopiedPlain(item, MailFields);
  }

  /** Every copied header is there, None when the message lacks it. */
  lemma BaseItemFields(item: map<string, Value>, date: Value, list: Value)
    ensures var b := BaseItem(item, date, list);
      (forall f :: f in MailFields ==> f in b && b[f] == Get(item, f)) &&
      "email_date" in b && b["email_date"] == date && "list" in b && b["list"] == list
  {
    BaseKeysApart();
    CopiedThenSet(item, MailFields, "email_date", date, "list", list);
  }

  /** Setting two keys that are not copied fields after copying. */
  lemma CopiedThenSet(src: map<string, Value>, fields: seq<string>, k1: string, v1: Value, k2: string, v2: Value)
    requires k1 !in fields && k2 !in fields
    ensures var b := Copied(src, fields, "")[k1 := v1][k2 := v2];
      forall f :: f in fields ==> f in b && b[f] == Get(src, f)
  {
    CopiedPlain(src, fields);
  }

  /** None of the added keys is in the base message. */
  lemma BaseItemLacksAdded(item: map<string, Value>, date: Value, list: Value)
    ensures forall k :: k in Added ==> k !in BaseItem(item, date, list)
  {
    BaseItemKeys(item, date, list);
    BaseKeysApart();
  }

  /** The Sorting Hat update adds its own keys and keeps every other. */
  lemma WithShKeeps(eitem: map<string, Value>, item: map<string, Value>, sh: Option<SortingHat>)
    requires WithSh(eitem, item, sh).Ok?
    ensures var w := WithSh(eitem, item, sh).value;
      (forall k :: k in eitem && k !in Added ==> k in w && w[k] == eitem[k]) &&
      ("from_uuid" in w <==> sh.Some? || "from_uuid" in eitem) &&
      ("project" in w <==> "project" in eitem)
  {
  }

  /** The project update adds `project` and keeps every other key. */
  lemma WithProjectKeeps(eitem: map<string, Value>, item: map<string, Value>, prjs: map<string, map<string, Value>>)
    requires WithProject(eitem, item, prjs).Ok?
    ensures var w := WithProject(eitem, item, prjs).value;
      (forall k :: k in eitem && k != "project" ==> k in w && w[k] == eitem[k]) &&
      ("project" in w <==> prjs != map[] || "project" in eitem)
  {
  }

  /** The optional updates keep every key of the base message they do not set. */
  lemma RichItemKeeps(item: map<string, Value>, e: Enricher)
    requires RichItem(item, e).Ok?
    ensures var b := BaseItem(item, EmailDate(item, e.parseIso).value, Origin(item).value);
      var r := RichItem(item, e).value;
      (forall k :: k in b && k !in Added ==> k in r && r[k] == b[k]) &&
      ("from_uuid" in r <==> e.sortingHat.Some? || "from_uuid" in b) &&
      ("project" in r <==> e.prjsMap != map[] || "project" in b)
  {
    var b := BaseItem(item, EmailDate(item, e.parseIso).value, Origin(item).value);
    WithShKeeps(b, item, e.sortingHat);
    var w := WithSh(b, item, e.sortingHat).value;
    WithProjectKeeps(w, item, e.prjsMap);
  }

  /** What the base message holds outside the added keys survives in the enriched one. */
  lemma BaseSurvives(item: map<string, Value>, b: map<string, Value>, r: map<string, Value>)
    requires forall f :: f in MailFields ==> f in b && b[f] == Get(item, f)
    requires "email_date" in b && "list" in b
    requires forall k :: k in b && k !in Added ==> k in r && r[k] == b[k]
    ensures forall f :: f in MailFields ==> f in r && r[f] == Get(item, f)
    ensures "email_date" in r && r["email_date"] == b["email_date"]
    ensures "list" in r && r["list"] == b["list"]
  {
    BaseKeysApart();
  }

  /**
   * The enriched message: the copied headers, the parsed date, the list, the sender's
   * uuid exactly when the Sorting Hat is on and the project exactly when there is a map.
   */
  lemma RichItemFields(item: map<string, Value>, e: Enricher)
    requires RichItem(item, e).Ok?
    ensures var r := RichItem(item, e).value;
      (forall f :: f in MailFields ==> f in r && r[f] == Get(item, f)) &&
      "email_date" in r && r["email_date"] == EmailDate(item, e.parseIso).value &&
      "list" in r && r["list"] == Origin(item).value &&
      ("from_uuid" in r <==> e.sortingHat.Some?) &&
      ("project" in r <==> e.prjsMap != map[])
  {
    var date := EmailDate(item, e.parseIso).value;
    var list := Origin(item).value;
    var b := BaseItem(item, date, list);
    BaseItemFields(item, date, list);
    BaseItemLacksAdded(item, date, list);
    RichItemKeeps(item, e);
    BaseSurvives(item, b, RichItem(item, e).value);
  }

  // ---------------------------------------------------------------------------
  // enrich_items
  // ---------------------------------------------------------------------------

  /** The bulk record of a message: its `ocean-unique-id` as `%s` and the dumped enriched message. */
  function MailEntry(item: map<string, Value>, e: Enricher): Result<Entry> {
    var rich :- RichItem(item, e);
    Ok(Entry(Show(Get(rich, FieldUniqueId), e.repr), e.dumps(Obj(rich))))
  }

  /** The `_id` of a message is its own `ocean-unique-id`, or "None" when it has none. */
  lemma MailEntryId(item: map<string, Value>, e: Enricher)
    requires MailEntry(item, e).Ok?
    ensures MailEntry(item, e).value.id == Show(Get(item, FieldUniqueId), e.repr)
  {
    RichItemFields(item, e);
  }

  /** The records of a run of messages, in order. */
  function MailEntries(items: seq<map<string, Value>>, e: Enricher): (r: seq<Result<Entry>>)
    ensures |r| == |items|
    decreases |items|
  {
    if items == [] then []
    else MailEntries(items[..|items| - 1], e) + [MailEntry(items[|items| - 1], e)]
  }

  lemma {:induction false} MailEntriesAt(items: seq<map<string, Value>>, e: Enricher, i: nat)
    requires i < |items|
    ensures MailEntries(items, e)[i] == MailEntry(items[i], e)
    decreases |items|
  {
    if i < |items| - 1 {
      assert items[..|items| - 1][i] == items[i];
      MailEntriesAt(items[..|items| - 1], e, i);
    }
  }

  /** One turn of the enrich_items loop: enrich message k and form its bulk record. */
  method MailRecord(items: seq<map<string, Value>>, k: nat, e: Enricher, ghost rs: seq<Result<Entry>>)
    returns (record: Result<Entry>)
    requires k < |items| == |rs|
    requires forall j {:trigger MailEntry(items[j], e)} :: 0 <= j < |items| ==> rs[j] == MailEntry(items[j], e)
    ensures record == rs[k]
  {
    var rich := GetRichItem(items[k], e);
    record := if rich.Err? then Err(rich.fault)
      else Ok(Entry(Show(Get(rich.value, FieldUniqueId), e.repr), e.dumps(Obj(rich.value))));
    assert record == MailEntry(items[k], e);
  }

  /**
   * The enrich_items loop up to the first message whose enrichment raises, that one
   * included; `rs` are the records of all the messages.
   */
  method MailRecords(items: seq<map<string, Value>>, e: Enricher, ghost rs: seq<Result<Entry>>)
    returns (records: seq<Result<Entry>>)
    requires |items| == |rs|
    requires forall j {:trigger MailEntry(items[j], e)} :: 0 <= j < |items| ==> rs[j] == MailEntry(items[j], e)
    ensures records == rs[..Written(rs)]
  {
    records := [];
    var k := 0;
    while k < |items|
      invariant 0 <= k <= |items|
      invariant records == rs[..k]
      invariant forall j :: 0 <= j < k ==> rs[j].Ok?
    {
      var record := MailRecord(items, k, e, rs);
      records := records + [record];
      if record.Err? {
        FirstFailureAt(rs, k);
        return;
      }
      k := k + 1;
    }
    AllOkNoFailure(rs);
  }

  /** enrich_items: the enriched messages in bulk bodies of max_items, then the trailing PUT. */
  method EnrichItems(items: seq<map<string, Value>>, maxItems: int, e: Enricher)
    returns (puts: seq<string>, fault: Option<Fault>)
    ensures (puts, fault) == BulkOutcome(MailEntries(items, e), maxItems)
  {
    ghost var rs := MailEntries(items, e);
    forall j | 0 <= j < |items| ensures rs[j] == MailEntry(items[j], e) {
      MailEntriesAt(items, e, j);
    }
    var records := MailRecords(items, e, rs);
    if FirstFailure(rs) < |rs| {
      BulkOutcomeStopsAtFailure(rs, maxItems);
    } else {
      assert records == rs;
    }
    puts, fault := WriteBulk(records, maxItems);
  }

  /** When every message enriches, nothing fails and every batch is PUT, the last one always. */
  lemma EnrichItemsAllWritten(items: seq<map<string, Value>>, maxItems: int, e: Enricher)
    requires forall i :: 0 <= i < |items| ==> RichItem(items[i], e).Ok?
    ensures var rs := MailEntries(items, e);
      FirstFailure(rs) == |rs| &&
      BulkOutcome(rs, maxItems) == (Payloads(Batches(Values(rs, |rs|), maxItems)), None) &&
      |BulkOutcome(rs, maxItems).0| >= 1
  {
    var rs := MailEntries(items, e);
    forall i | 0 <= i < |rs| ensures rs[i].Ok? {
      MailEntriesAt(items, e, i);
    }
    AllOkNoFailure(rs);
  }
}
