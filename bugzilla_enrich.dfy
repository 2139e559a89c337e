/**
 * The Bugzilla enricher: the Sorting Hat identities of a bug's people, the enriched
 * fields `enrich_issue` adds to a bug in place, and the two bulk writers.
 */
module BugzillaEnrich {
  import opened Results
  import opened Json
  import opened Bulk
  import opened Text

  /** The enriched field that orders the index (`get_field_date`). */
  const FieldDate := "delta_ts"

  /** The enriched fields holding Sorting Hat uuids (`get_fields_uuid`). */
  const FieldsUuid := ["assigned_to_uuid", "reporter_uuid"]

  // ---------------------------------------------------------------------------
  // get_sh_identity
  // ---------------------------------------------------------------------------

  /** `user_list_data[0]['__text__']`: the text of a person list's first entry. */
  function ListText(v: Value): Result<Value> {
    var item :- First(v);
    Member(item, "__text__")
  }

  /** The first entry of a person list carries a `name`. */
  predicate HasName(v: Value) {
    v.Arr? && |v.items| > 0 && v.items[0].Obj? && "name" in v.items[0].fields
  }

  function NameOf(v: Value): Value
    requires HasName(v)
  {
    v.items[0].fields["name"]
  }

  /** `fill_list_identity`: the username from the first entry's text, the name when it has one. */
  function FillListIdentity(identity: Identity, v: Value): Result<Identity> {
    var text :- ListText(v);
    Ok(Identity(text, if HasName(v) then NameOf(v) else identity.name, identity.email))
  }

  /**
   * `get_sh_identity`: starting from an identity with every component None, the roles
   * reporter, assigned_to and who fill it from their lists, `Who` sets the username,
   * qa_contact fills it again and `changed_by` sets the name, each overwriting the last.
   */
  function ShIdentity(user: map<string, Value>): Result<Identity> {
    var i1 :- if "reporter" in user then FillListIdentity(NoIdentity, user["reporter"]) else Ok(NoIdentity);
    var i2 :- if "assigned_to" in user then FillListIdentity(i1, user["assigned_to"]) else Ok(i1);
    var i3 :- if "who" in user then FillListIdentity(i2, user["who"]) else Ok(i2);
    var i4 := if "Who" in user then i3.(username := user["Who"]) else i3;
    var i5 :- if "qa_contact" in user then FillListIdentity(i4, user["qa_contact"]) else Ok(i4);
    Ok(if "changed_by" in user then i5.(name := user["changed_by"]) else i5)
  }

  /** The email of a Bugzilla identity is always None. */
  lemma ShIdentityEmail(user: map<string, Value>)
    ensures ShIdentity(user).Ok? ==> ShIdentity(user).value.email == Null
  {
  }

  /** The identity fails exactly when one of the list roles present has no first entry text. */
  lemma ShIdentityFails(user: map<string, Value>)
    ensures ShIdentity(user).Err? <==>
      ("reporter" in user && ListText(user["reporter"]).Err?) ||
      ("assigned_to" in user && ListText(user["assigned_to"]).Err?) ||
      ("who" in user && ListText(user["who"]).Err?) ||
      ("qa_contact" in user && ListText(user["qa_contact"]).Err?)
  {
  }

  /**
   * Later roles win: the username comes from the last present of reporter, assigned_to,
   * who, Who and qa_contact (changed_by never sets it), and is None when none is present.
   */
  lemma ShIdentityUsername(user: map<string, Value>)
    ensures ShIdentity(user).Ok? ==>
      Ok(ShIdentity(user).value.username) ==
        if "qa_contact" in user then ListText(user["qa_contact"])
        else if "Who" in user then Ok(user["Who"])
        else if "who" in user then ListText(user["who"])
        else if "assigned_to" in user then ListText(user["assigned_to"])
        else if "reporter" in user then ListText(user["reporter"])
        else Ok(Null)
  {
  }

  /**
   * The name comes from `changed_by` when present, otherwise from the last list role whose
   * first entry has a name (a role without one keeps the earlier name), and is None otherwise.
   */
  lemma ShIdentityName(user: map<string, Value>)
    ensures ShIdentity(user).Ok? ==>
      ShIdentity(user).value.name ==
        if "changed_by" in user then user["changed_by"]
        else if "qa_contact" in user && HasName(user["qa_contact"]) then NameOf(user["qa_contact"])
        else if "who" in user && HasName(user["who"]) then NameOf(user["who"])
        else if "assigned_to" in user && HasName(user["assigned_to"]) then NameOf(user["assigned_to"])
        else if "reporter" in user && HasName(user["reporter"]) then NameOf(user["reporter"])
        else Null
  {
  }

  /** A reporter list `[{'__text__': t, 'name': n}]` alone gives username t, name n and no email. */
  lemma ReporterIdentity(t: Value, n: Value)
    ensures ShIdentity(map["reporter" := Arr([Obj(map["__text__" := t, "name" := n])])]) == Ok(Identity(t, n, Null))
  {
    var entry := Obj(map["__text__" := t, "name" := n]);
    var user := map["reporter" := Arr([entry])];
    assert HasName(user["reporter"]) && NameOf(user["reporter"]) == n;
    assert ListText(user["reporter"]) == Ok(t);
  }

  // ---------------------------------------------------------------------------
  // get_identities
  // ---------------------------------------------------------------------------

  /** The keys get_sh_identity tests with `in`, in the order it tests them. */
  const Roles := ["reporter", "assigned_to", "who", "Who", "qa_contact", "changed_by"]

  /**
   * `get_sh_identity(event)` for any kind of event. On a dict `role in event` tests the
   * keys; on a str it is a substring test and on a list a membership test, and the first
   * role found is then indexed with a str, a TypeError; on None, a number or a boolean the
   * `in` test itself raises TypeError.
   */
  function EventIdentity(event: Value): Result<Identity> {
    if event.Obj? then ShIdentity(event.fields)
    else if !Testable(event) then Err(TypeError)
    else if !NoneIn(Roles, event) then Err(TypeError)
    else Ok(NoIdentity)
  }

  /** A str event too short to hold a role name gives the identity with every component None. */
  lemma ShortTextEvent(s: string)
    requires |s| < 3
    ensures EventIdentity(Str(s)) == Ok(NoIdentity)
  {
    forall k | 0 <= k < |Roles| ensures !Contains(s, Roles[k]) {
      assert |Roles[k]| >= 3;
    }
  }

  /** A str event holding a role name raises TypeError when that role is indexed. */
  lemma RoleTextEvent(s: string, k: nat)
    requires k < |Roles| && Contains(s, Roles[k])
    ensures EventIdentity(Str(s)) == Err(TypeError)
  {
  }

  /** A list event none of whose str items is long enough to be a role name, such as `["x"]`, gives the identity with every component None. */
  lemma ListEvent(items: seq<Value>)
    requires forall i :: 0 <= i < |items| && items[i].Str? ==> |items[i].s| < 3
    ensures EventIdentity(Arr(items)) == Ok(NoIdentity)
  {
    forall k | 0 <= k < |Roles| ensures Str(Roles[k]) !in items {
      assert |Roles[k]| >= 3;
    }
  }

  /** The identities of a list of events, one per event in order. */
  function EventIdentities(events: seq<Value>): (r: Result<seq<Identity>>)
    ensures r.Ok? ==> (|r.value| == |events| &&
      forall i :: 0 <= i < |events| ==> EventIdentity(events[i]) == Ok(r.value[i]))
    ensures r.Err? ==> exists i :: 0 <= i < |events| && EventIdentity(events[i]).Err?
    decreases |events|
  {
    if events == [] then Ok([])
    else
      var init :- EventIdentities(events[..|events| - 1]);
      var identity :- EventIdentity(events[|events| - 1]);
      Ok(init + [identity])
  }

  /** The identities of a list-valued field of the item. */
  function ListIdentities(v: Value): Result<seq<Identity>> {
    var events :- AsList(v);
    EventIdentities(events)
  }

  /** The identity of the role dict `{role: item[role]}`, as a one-element list. */
  function RoleIdentity(item: map<string, Value>, role: string): Result<seq<Identity>>
    requires role in item
  {
    var identity :- ShIdentity(map[role := item[role]]);
    Ok([identity])
  }

  /**
   * `get_identities`: the identities of the activity events, then those of the comments,
   * or, only when there are no comments, of the first present of assigned_to, reporter and
   * qa_contact.
   */
  function Identities(item: map<string, Value>): Result<seq<Identity>> {
    var activity :- if "activity" in item then ListIdentities(item["activity"]) else Ok([]);
    var rest :-
      if "long_desc" in item then ListIdentities(item["long_desc"])
      else if "assigned_to" in item then RoleIdentity(item, "assigned_to")
      else if "reporter" in item then RoleIdentity(item, "reporter")
      else if "qa_contact" in item then RoleIdentity(item, "qa_contact")
      else Ok([]);
    Ok(activity + rest)
  }

  /** The loop `for event in events: identities.append(get_sh_identity(event))`. */
  method AppendIdentities(identities: seq<Identity>, v: Value) returns (r: Result<seq<Identity>>)
    ensures r == (var more :- ListIdentities(v); Ok(identities + more))
  {
    if !v.Arr? {
      return Err(TypeError);
    }
    var events := v.items;
    var acc := identities;
    var k := 0;
    while k < |events|
      invariant 0 <= k <= |events|
      invariant EventIdentities(events[..k]).Ok?
      invariant acc == identities + EventIdentities(events[..k]).value
    {
      assert events[..k + 1][..k] == events[..k];
      var identity := EventIdentity(events[k]);
      if identity.Err? {
        assert EventIdentities(events[..k + 1]) == Err(identity.fault);
        EventsFailFrom(events, k + 1);
        return Err(identity.fault);
      }
      acc := acc + [identity.value];
      k := k + 1;
    }
    assert events[..k] == events;
    return Ok(acc);
  }

  /** A failure among the first events is the failure of the whole list. */
  lemma {:induction false} EventsFailFrom(events: seq<Value>, k: nat)
    requires k <= |events| && EventIdentities(events[..k]).Err?
    ensures EventIdentities(events) == EventIdentities(events[..k])
    decreases |events| - k
  {
    if k < |events| {
      assert events[..k + 1][..k] == events[..k];
      EventsFailFrom(events, k + 1);
    } else {
      assert events[..k] == events;
    }
  }

  /** `get_identities` as the code runs it, appending to one list. */
  method GetIdentities(item: map<string, Value>) returns (r: Result<seq<Identity>>)
    ensures r == Identities(item)
  {
    var identities: seq<Identity> := [];
    if "activity" in item {
      var a := AppendIdentities(identities, item["activity"]);
      if a.Err? {
        return a;
      }
      identities := a.value;
      assert [] + ListIdentities(item["activity"]).value == ListIdentities(item["activity"]).value;
    }
    if "long_desc" in item {
      r := AppendIdentities(identities, item["long_desc"]);
    } else if "assigned_to" in item {
      var identity := ShIdentity(map["assigned_to" := item["assigned_to"]]);
      r := if identity.Err? then Err(identity.fault) else Ok(identities + [identity.value]);
    } else if "reporter" in item {
      var identity := ShIdentity(map["reporter" := item["reporter"]]);
      r := if identity.Err? then Err(identity.fault) else Ok(identities + [identity.value]);
    } else if "qa_contact" in item {
      var identity := ShIdentity(map["qa_contact" := item["qa_contact"]]);
      r := if identity.Err? then Err(identity.fault) else Ok(identities + [identity.value]);
    } else {
      assert identities + [] == identities;
      r := Ok(identities);
    }
  }

  /**
   * One identity per activity event and per comment; without comments, at most one more,
   * and exactly one when one of assigned_to, reporter, qa_contact is present.
   */
  lemma IdentitiesCount(item: map<string, Value>)
    requires Identities(item).Ok?
    ensures var n := |Identities(item).value|;
      var acts := if "activity" in item then |item["activity"].items| else 0;
      if "long_desc" in item then item["long_desc"].Arr? && n == acts + |item["long_desc"].items|
      else if "assigned_to" in item || "reporter" in item || "qa_contact" in item then n == acts + 1
      else n == acts
    ensures "activity" in item ==> item["activity"].Arr?
  {
  }

  /** Without comments the single extra identity is that of assigned_to, the first of the three roles. */
  lemma IdentitiesPreferAssignee(item: map<string, Value>)
    requires "long_desc" !in item && "activity" !in item && "assigned_to" in item
    ensures Identities(item) == (var i :- ShIdentity(map["assigned_to" := item["assigned_to"]]); Ok([i]))
  {
    var i := ShIdentity(map["assigned_to" := item["assigned_to"]]);
    if i.Ok? {
      assert [] + [i.value] == [i.value];
    }
  }

  // ---------------------------------------------------------------------------
  // enrich_issue
  // ---------------------------------------------------------------------------

  /**
   * What the enricher takes from outside the item: dateutil's parse followed by
   * strftime('%Y-%m-%dT%H:%M:%S') (None when the text does not parse), get_time_diff_days,
   * Sorting Hat's get_uuid, and the scheme and netloc urlparse finds in the backend URL.
   */
  datatype Backend = Backend(
    formatDate: string -> Option<string>,
    timeDiffDays: (Value, Value) -> Value,
    uuid: Identity -> Value,
    scheme: string,
    netloc: string)

  /** `issue[key][0]['__text__']` where a str is needed. */
  function FirstText(m: map<string, Value>, key: string): Result<string> {
    var v :- Field(m, key);
    var text :- ListText(v);
    AsStr(text)
  }

  /** `issue[key] = parser.parse(issue[key][0]['__text__']).strftime(...)`. */
  function FixDate(m: map<string, Value>, key: string, formatDate: string -> Option<string>): Result<map<string, Value>> {
    var text :- FirstText(m, key);
    match formatDate(text)
    case None => Err(DateError(text))
    case Some(d) => Ok(m[key := Str(d)])
  }

  /** `len(issue['long_desc'])`. */
  function CommentCount(m: map<string, Value>): Result<nat> {
    var comments :- Field(m, "long_desc");
    Len(comments)
  }

  /** `issue[uuidKey] = get_uuid(get_sh_identity({role: issue[role]}))` when the role is present. */
  function WithUuid(m: map<string, Value>, role: string, uuidKey: string, uuid: Identity -> Value): Result<map<string, Value>> {
    if role !in m then Ok(m)
    else
      var identity :- ShIdentity(map[role := m[role]]);
      Ok(m[uuidKey := uuid(identity)])
  }

  /** The bug's page: `<scheme>://<netloc>/show_bug.cgi?id=<id>`. */
  function IssueUrl(scheme: string, netloc: string, id: string): string {
    scheme + "://" + netloc + "/" + "show_bug.cgi?id=" + id
  }

  /** The URL as enrich_issue builds it: `u.scheme + "//" + u.netloc + "show_bug.cgi?id=" + id`. */
  function IssueUrlAsWritten(scheme: string, netloc: string, id: string): string {
    scheme + "//" + netloc + "show_bug.cgi?id=" + id
  }

  /**
   * The URL as built has no ':' after the scheme and no '/' between the host and the
   * page, where a URL has both: `https`, `bugzilla.example.org` and `1` give
   * `https//bugzilla.example.orgshow_bug.cgi?id=1`.
   */
  lemma IssueUrlAsWrittenMalformed(scheme: string, netloc: string, id: string)
    ensures var u := IssueUrlAsWritten(scheme, netloc, id);
      u[|scheme|] == '/' && u[|scheme| + 2 + |netloc|] == 's'
    ensures IssueUrlAsWritten(scheme, netloc, id) != IssueUrl(scheme, netloc, id)
  {
    var u := IssueUrlAsWritten(scheme, netloc, id);
    var w := IssueUrl(scheme, netloc, id);
    assert u[|scheme|] == '/';
    assert w[|scheme|] == ':';
  }

  /** The corrected URL starts with the scheme and `://`, names the host, then the page for the id. */
  lemma IssueUrlParts(scheme: string, netloc: string, id: string)
    ensures var u := IssueUrl(scheme, netloc, id);
      var home := scheme + "://" + netloc + "/";
      |u| == |home| + 16 + |id| &&
      u[..|home|] == home &&
      u[|home|..|home| + 16] == "show_bug.cgi?id=" &&
      u[|home| + 16..] == id
  {
    var home := scheme + "://" + netloc + "/";
    var page := "show_bug.cgi?id=";
    var u := IssueUrl(scheme, netloc, id);
    assert u == home + page + id;
  }

  /**
   * The item after `enrich_issue`, and the exception it stopped at. The method writes the
   * fields one after another, so an exception leaves the fields written before it.
   */
  function EnrichedIssue(m: map<string, Value>, b: Backend): (map<string, Value>, Option<Fault>) {
    var (p, fault) := Prepared(m, b);
    if fault.Some? then (p, fault) else WithUuids(p, b)
  }

  /**
   * The part before Sorting Hat: the two reformatted dates, then `number_of_comments` 0
   * with `time_to_last_update_days` and `url` None, then the comment count, the url and
   * the time to the last update.
   */
  function Prepared(m: map<string, Value>, b: Backend): (map<string, Value>, Option<Fault>) {
    var c := FixDate(m, "creation_ts", b.formatDate);
    if c.Err? then (m, Some(c.fault)) else
    var d := FixDate(c.value, "delta_ts", b.formatDate);
    if d.Err? then (c.value, Some(d.fault)) else
    var m0 := d.value["number_of_comments" := Int(0)]["time_to_last_update_days" := Null]["url" := Null];
    var n := CommentCount(m0);
    if n.Err? then (m0, Some(n.fault)) else
    var m1 := m0["number_of_comments" := Int(n.value)];
    var id := FirstText(m1, "bug_id");
    if id.Err? then (m1, Some(id.fault)) else
    var m2 := m1["url" := Str(IssueUrlAsWritten(b.scheme, b.netloc, id.value))];
    (m2["time_to_last_update_days" := b.timeDiffDays(m2["creation_ts"], m2["delta_ts"])], None)
  }

  /** The Sorting Hat part: the assignee's uuid, then the reporter's. */
  function WithUuids(m: map<string, Value>, b: Backend): (map<string, Value>, Option<Fault>) {
    var a := WithUuid(m, "assigned_to", "assigned_to_uuid", b.uuid);
    if a.Err? then (m, Some(a.fault))
    else
      var r := WithUuid(a.value, "reporter", "reporter_uuid", b.uuid);
      if r.Err? then (a.value, Some(r.fault)) else (r.value, None)
  }

  /** `enrich_issue(issue)`, changing the item in place. */
  method EnrichIssue(issue: Document, b: Backend) returns (fault: Option<Fault>)
    modifies issue
    ensures (issue.fields, fault) == EnrichedIssue(old(issue.fields), b)
  {
    fault := PrepareIssue(issue, b);
    if fault.Some? {
      return;
    }
    var a := WithUuid(issue.fields, "assigned_to", "assigned_to_uuid", b.uuid);
    if a.Err? {
      return Some(a.fault);
    }
    issue.fields := a.value;
    var r := WithUuid(issue.fields, "reporter", "reporter_uuid", b.uuid);
    if r.Err? {
      return Some(r.fault);
    }
    issue.fields := r.value;
  }

  /** The dates, the count, the url and the time to the last update, written in turn. */
  method PrepareIssue(issue: Document, b: Backend) returns (fault: Option<Fault>)
    modifies issue
    ensures (issue.fields, fault) == Prepared(old(issue.fields), b)
  {
    var c := FixDate(issue.fields, "creation_ts", b.formatDate);
    if c.Err? {
      return Some(c.fault);
    }
    issue.fields := c.value;
    var d := FixDate(issue.fields, "delta_ts", b.formatDate);
    if d.Err? {
      return Some(d.fault);
    }
    issue.fields := d.value;
    issue.fields := issue.fields["number_of_comments" := Int(0)];
    issue.fields := issue.fields["time_to_last_update_days" := Null];
    issue.fields := issue.fields["url" := Null];
    var n := CommentCount(issue.fields);
    if n.Err? {
      return Some(n.fault);
    }
    issue.fields := issue.fields["number_of_comments" := Int(n.value)];
    var id := FirstText(issue.fields, "bug_id");
    if id.Err? {
      return Some(id.fault);
    }
    issue.fields := issue.fields["url" := Str(IssueUrlAsWritten(b.scheme, b.netloc, id.value))];
    issue.fields := issue.fields["time_to_last_update_days" :=
      b.timeDiffDays(issue.fields["creation_ts"], issue.fields["delta_ts"])];
    fault := None;
  }

  /** The keys written before the Sorting Hat part. */
  predicate PreparedKey(k: string) {
    k == "creation_ts" || k == "delta_ts" || k == "number_of_comments" ||
    k == "time_to_last_update_days" || k == "url"
  }

  lemma PreparedKeeps(m: map<string, Value>, b: Backend, k: string)
    requires !PreparedKey(k)
    ensures var e := Prepared(m, b).0; (k in e <==> k in m) && (k in m ==> e[k] == m[k])
  {
  }

  lemma WithUuidsKeeps(m: map<string, Value>, b: Backend, k: string)
    requires k !in FieldsUuid
    ensures var e := WithUuids(m, b).0; (k in e <==> k in m) && (k in m ==> e[k] == m[k])
  {
  }

  /** Whether it succeeds or not, enrich_issue adds or changes no key but its own. */
  lemma EnrichedIssueKeepsOthers(m: map<string, Value>, b: Backend, k: string)
    requires !PreparedKey(k) && k !in FieldsUuid
    ensures var e := EnrichedIssue(m, b).0; (k in e <==> k in m) && (k in m ==> e[k] == m[k])
  {
    PreparedKeeps(m, b, k);
    WithUuidsKeeps(Prepared(m, b).0, b, k);
  }

  lemma PreparedFields(m: map<string, Value>, b: Backend)
    requires Prepared(m, b).1 == None
    ensures var e := Prepared(m, b).0;
      FirstText(m, "creation_ts").Ok? && FirstText(m, "delta_ts").Ok? &&
      b.formatDate(FirstText(m, "creation_ts").value).Some? &&
      b.formatDate(FirstText(m, "delta_ts").value).Some? &&
      e["creation_ts"] == Str(b.formatDate(FirstText(m, "creation_ts").value).value) &&
      e["delta_ts"] == Str(b.formatDate(FirstText(m, "delta_ts").value).value) &&
      CommentCount(m).Ok? && e["number_of_comments"] == Int(CommentCount(m).value) &&
      FirstText(m, "bug_id").Ok? &&
      e["url"] == Str(IssueUrlAsWritten(b.scheme, b.netloc, FirstText(m, "bug_id").value)) &&
      e["time_to_last_update_days"] == b.timeDiffDays(e["creation_ts"], e["delta_ts"])
  {
    var c := FixDate(m, "creation_ts", b.formatDate).value;
    var d := FixDate(c, "delta_ts", b.formatDate).value;
    assert FirstText(c, "delta_ts") == FirstText(m, "delta_ts");
    var m0 := d["number_of_comments" := Int(0)]["time_to_last_update_days" := Null]["url" := Null];
    assert CommentCount(m0) == CommentCount(m);
    var m1 := m0["number_of_comments" := Int(CommentCount(m).value)];
    assert FirstText(m1, "bug_id") == FirstText(m, "bug_id");
  }

  /**
   * A successful enrichment holds the formatted dates, the number of comments, the URL as
   * the code builds it, and the time between the two dates.
   */
  lemma EnrichedIssueFields(m: map<string, Value>, b: Backend)
    requires EnrichedIssue(m, b).1 == None
    ensures var e := EnrichedIssue(m, b).0;
      FirstText(m, "creation_ts").Ok? && FirstText(m, "delta_ts").Ok? &&
      b.formatDate(FirstText(m, "creation_ts").value).Some? &&
      b.formatDate(FirstText(m, "delta_ts").value).Some? &&
      e["creation_ts"] == Str(b.formatDate(FirstText(m, "creation_ts").value).value) &&
      e["delta_ts"] == Str(b.formatDate(FirstText(m, "delta_ts").value).value) &&
      "long_desc" in m && Len(m["long_desc"]).Ok? &&
      e["number_of_comments"] == Int(Len(m["long_desc"]).value) &&
      FirstText(m, "bug_id").Ok? &&
      e["url"] == Str(IssueUrlAsWritten(b.scheme, b.netloc, FirstText(m, "bug_id").value)) &&
      e["time_to_last_update_days"] == b.timeDiffDays(e["creation_ts"], e["delta_ts"])
  {
    var p := Prepared(m, b).0;
    PreparedFields(m, b);
    WithUuidsKeeps(p, b, "creation_ts");
    WithUuidsKeeps(p, b, "delta_ts");
    WithUuidsKeeps(p, b, "number_of_comments");
    WithUuidsKeeps(p, b, "url");
    WithUuidsKeeps(p, b, "time_to_last_update_days");
  }

  /** So every successfully enriched bug carries a URL that is not its page's. */
  lemma EnrichedUrlNotPage(m: map<string, Value>, b: Backend)
    requires EnrichedIssue(m, b).1 == None
    ensures FirstText(m, "bug_id").Ok?
    ensures EnrichedIssue(m, b).0["url"] != Str(IssueUrl(b.scheme, b.netloc, FirstText(m, "bug_id").value))
  {
    EnrichedIssueFields(m, b);
    var id := FirstText(m, "bug_id").value;
    IssueUrlAsWrittenMalformed(b.scheme, b.netloc, id);
  }

  lemma WithUuidsRoles(m: map<string, Value>, b: Backend)
    requires WithUuids(m, b).1 == None
    ensures var e := WithUuids(m, b).0;
      ("assigned_to" in m ==> (ShIdentity(map["assigned_to" := m["assigned_to"]]).Ok? &&
        e["assigned_to_uuid"] == b.uuid(ShIdentity(map["assigned_to" := m["assigned_to"]]).value))) &&
      ("assigned_to" !in m ==> Get(e, "assigned_to_uuid") == Get(m, "assigned_to_uuid")) &&
      ("reporter" in m ==> (ShIdentity(map["reporter" := m["reporter"]]).Ok? &&
        e["reporter_uuid"] == b.uuid(ShIdentity(map["reporter" := m["reporter"]]).value))) &&
      ("reporter" !in m ==> Get(e, "reporter_uuid") == Get(m, "reporter_uuid"))
  {
  }

  /** `assigned_to_uuid` and `reporter_uuid` are written exactly for the roles the bug names. */
  lemma EnrichedIssueUuids(m: map<string, Value>, b: Backend)
    requires EnrichedIssue(m, b).1 == None
    ensures var e := EnrichedIssue(m, b).0;
      ("assigned_to" in m ==> (ShIdentity(map["assigned_to" := m["assigned_to"]]).Ok? &&
        e["assigned_to_uuid"] == b.uuid(ShIdentity(map["assigned_to" := m["assigned_to"]]).value))) &&
      ("assigned_to" !in m ==> Get(e, "assigned_to_uuid") == Get(m, "assigned_to_uuid")) &&
      ("reporter" in m ==> (ShIdentity(map["reporter" := m["reporter"]]).Ok? &&
        e["reporter_uuid"] == b.uuid(ShIdentity(map["reporter" := m["reporter"]]).value))) &&
      ("reporter" !in m ==> Get(e, "reporter_uuid") == Get(m, "reporter_uuid"))
  {
    var p := Prepared(m, b).0;
    PreparedKeeps(m, b, "assigned_to");
    PreparedKeeps(m, b, "reporter");
    PreparedKeeps(m, b, "assigned_to_uuid");
    PreparedKeeps(m, b, "reporter_uuid");
    WithUuidsRoles(p, b);
  }

  /** A bug without comments stops at the count, with the count 0 and neither url nor time written. */
  lemma EnrichedIssueWithoutComments(m: map<string, Value>, b: Backend)
    requires "long_desc" !in m
    requires FixDate(m, "creation_ts", b.formatDate).Ok?
    requires FixDate(FixDate(m, "creation_ts", b.formatDate).value, "delta_ts", b.formatDate).Ok?
    ensures var (e, fault) := EnrichedIssue(m, b);
      fault == Some(KeyError("long_desc")) &&
      e["number_of_comments"] == Int(0) && e["url"] == Null && e["time_to_last_update_days"] == Null
  {
  }

  // ---------------------------------------------------------------------------
  // issues_list_to_es and issues_to_es
  // ---------------------------------------------------------------------------

  /** `'{"index" : {"_id" : "%s" } }' % issue["bug_id"]` and `json.dumps(issue)`. */
  function IssueEntry(m: map<string, Value>, dumps: Value -> string, repr: Value -> string): Result<Entry> {
    var id :- Field(m, "bug_id");
    Ok(Entry(Show(id, repr), dumps(Obj(m))))
  }

  /** The bulk record of each listed bug, as issues_list_to_es writes them. */
  function ListEntries(items: seq<map<string, Value>>, dumps: Value -> string, repr: Value -> string): (r: seq<Result<Entry>>)
    ensures |r| == |items| && forall i :: 0 <= i < |items| ==> r[i] == IssueEntry(items[i], dumps, repr)
  {
    seq(|items|, i requires 0 <= i < |items| => IssueEntry(items[i], dumps, repr))
  }

  /** `issues_list_to_es`: the listed bugs as they are, in bulk bodies of max_items. */
  method IssuesListToEs(items: seq<map<string, Value>>, maxItems: int, dumps: Value -> string, repr: Value -> string)
    returns (puts: seq<string>, fault: Option<Fault>)
    ensures (puts, fault) == BulkOutcome(ListEntries(items, dumps, repr), maxItems)
  {
    puts, fault := WriteBulk(ListEntries(items, dumps, repr), maxItems);
  }

  /** When every listed bug has a `bug_id` nothing fails, and the PUTs are the batches' bodies. */
  lemma IssuesListAllWritten(items: seq<map<string, Value>>, maxItems: int, dumps: Value -> string, repr: Value -> string)
    requires forall i :: 0 <= i < |items| ==> "bug_id" in items[i]
    ensures var rs := ListEntries(items, dumps, repr);
      FirstFailure(rs) == |rs| &&
      BulkOutcome(rs, maxItems) == (Payloads(Batches(Values(rs, |rs|), maxItems)), None)
  {
    var rs := ListEntries(items, dumps, repr);
    assert forall i :: 0 <= i < |rs| ==> rs[i].Ok?;
    AllOkNoFailure(rs);
  }

  /** The bulk record of an enriched bug, or the exception its enrichment raised. */
  function EnrichedEntry(m: map<string, Value>, b: Backend, dumps: Value -> string, repr: Value -> string): Result<Entry> {
    var (e, fault) := EnrichedIssue(m, b);
    if fault.Some? then Err(fault.value) else IssueEntry(e, dumps, repr)
  }

  /** The records of a run of enrichments, one per bug in order. */
  function EnrichedEntries(items: seq<map<string, Value>>, b: Backend, dumps: Value -> string, repr: Value -> string): (r: seq<Result<Entry>>)
    ensures |r| == |items|
    decreases |items|
  {
    if items == [] then []
    else EnrichedEntries(items[..|items| - 1], b, dumps, repr) + [EnrichedEntry(items[|items| - 1], b, dumps, repr)]
  }

  lemma {:induction false} EnrichedEntriesAt(items: seq<map<string, Value>>, b: Backend, dumps: Value -> string, repr: Value -> string, i: nat)
    requires i < |items|
    ensures EnrichedEntries(items, b, dumps, repr)[i] == EnrichedEntry(items[i], b, dumps, repr)
    decreases |items|
  {
    if i < |items| - 1 {
      EnrichedEntriesAt(items[..|items| - 1], b, dumps, repr, i);
    }
  }

  /** The bugs after a run of enrichments, one per bug in order. */
  function EnrichedDocs(items: seq<map<string, Value>>, b: Backend): (r: seq<map<string, Value>>)
    ensures |r| == |items|
    decreases |items|
  {
    if items == [] then [] else EnrichedDocs(items[..|items| - 1], b) + [EnrichedIssue(items[|items| - 1], b).0]
  }

  lemma {:induction false} EnrichedDocsAt(items: seq<map<string, Value>>, b: Backend, i: nat)
    requires i < |items|
    ensures EnrichedDocs(items, b)[i] == EnrichedIssue(items[i], b).0
    decreases |items|
  {
    if i < |items| - 1 {
      EnrichedDocsAt(items[..|items| - 1], b, i);
    }
  }

  /** The fields of each document. */
  function FieldsOf(docs: seq<Document>): (r: seq<map<string, Value>>)
    reads set d | d in docs
    ensures |r| == |docs| && forall i :: 0 <= i < |docs| ==> r[i] == docs[i].fields
  {
    seq(|docs|, i reads set d | d in docs requires 0 <= i < |docs| => docs[i].fields)
  }

  /**
   * `issues_to_es`: each bug is enriched in place and then written; the loop stops at the
   * first bug whose enrichment (or whose `bug_id`) fails, leaving the later bugs untouched.
   */
  method IssuesToEs(items: seq<Document>, maxItems: int, b: Backend, dumps: Value -> string, repr: Value -> string)
    returns (puts: seq<string>, fault: Option<Fault>)
    requires forall i, j :: 0 <= i < j < |items| ==> items[i] != items[j]
    modifies set d | d in items
    ensures var rs := EnrichedEntries(old(FieldsOf(items)), b, dumps, repr);
      (puts, fault) == BulkOutcome(rs, maxItems) &&
      (forall i :: 0 <= i < Written(rs) ==> items[i].fields == EnrichedIssue(old(items[i].fields), b).0) &&
      (forall i :: Written(rs) <= i < |items| ==> items[i].fields == old(items[i].fields))
  {
    ghost var olds := FieldsOf(items);
    ghost var rs := EnrichedEntries(olds, b, dumps, repr);
    var records := EnrichItems(items, olds, b, dumps, repr);
    forall i | 0 <= i < Written(rs)
      ensures items[i].fields == EnrichedIssue(olds[i], b).0
    {
      EnrichedDocsAt(olds, b, i);
    }
    if FirstFailure(rs) < |rs| {
      BulkOutcomeStopsAtFailure(rs, maxItems);
    } else {
      assert records == rs;
    }
    puts, fault := WriteBulk(records, maxItems);
  }

  /** The loop of issues_to_es without its bulk body: the records, each bug enriched in turn. */
  method EnrichItems(items: seq<Document>, ghost olds: seq<map<string, Value>>, b: Backend, dumps: Value -> string, repr: Value -> string)
    returns (records: seq<Result<Entry>>)
    requires forall i, j :: 0 <= i < j < |items| ==> items[i] != items[j]
    requires |olds| == |items| && forall i :: 0 <= i < |items| ==> olds[i] == items[i].fields
    modifies set d | d in items
    ensures var rs := EnrichedEntries(olds, b, dumps, repr);
      records == rs[..Written(rs)] &&
      (forall i :: 0 <= i < Written(rs) ==> items[i].fields == EnrichedDocs(olds, b)[i]) &&
      (forall i :: Written(rs) <= i < |items| ==> items[i].fields == olds[i])
  {
    ghost var rs := EnrichedEntries(olds, b, dumps, repr);
    ghost var news := EnrichedDocs(olds, b);
    records := [];
    var k := 0;
    while k < |items|
      invariant 0 <= k <= |items|
      invariant records == rs[..k]
      invariant forall j :: 0 <= j < k ==> rs[j].Ok?
      invariant forall j :: k <= j < |items| ==> items[j].fields == olds[j]
      invariant forall j :: 0 <= j < k ==> items[j].fields == news[j]
    {
      var record := EnrichRecord(items[k], olds, k, b, dumps, repr);
      records := records + [record];
      if record.Err? {
        FirstFailureAt(rs, k);
        return;
      }
      k := k + 1;
    }
    AllOkNoFailure(rs);
  }

  /** One pass of the issues_to_es loop over bug k: enrich it in place, then make its record. */
  method EnrichRecord(doc: Document, ghost olds: seq<map<string, Value>>, ghost k: nat, b: Backend, dumps: Value -> string, repr: Value -> string)
    returns (record: Result<Entry>)
    requires k < |olds| && doc.fields == olds[k]
    modifies doc
    ensures doc.fields == EnrichedDocs(olds, b)[k]
    ensures record == EnrichedEntries(olds, b, dumps, repr)[k]
  {
    var f := EnrichIssue(doc, b);
    record := if f.Some? then Err(f.value) else IssueEntry(doc.fields, dumps, repr);
    EnrichedDocsAt(olds, b, k);
    EnrichedEntriesAt(olds, b, dumps, repr, k);
  }
}
