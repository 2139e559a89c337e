/**
 * The GitHub pull-request loader's user cache: users fetched once per login and kept
 * with their organisations, the name, email and organisation accessors that consult
 * it, and the enriched pull request built with them.
 */
module GithubUsers {
  import opened Results
  import opened Text
  import opened Json

  /**
   * The GitHub API as the loader sees it: the decoded answer to `/users/<login>` and
   * to `/users/<login>/orgs`.
   */
  datatype Api = Api(user: string -> Value, orgs: string -> Value)

  const OrgSeparator := ";;"

  /** The copied pull request fields, besides `id`. */
  const PullFields := ["title", "state", "created_at", "updated_at", "closed_at"]

  /** The record getGithubUser keeps for a login: the user with its organisations added. */
  function Stored(api: Api, login: string): Value {
    var u := api.user(login);
    if u.Obj? then Obj(u.fields["orgs" := api.orgs(login)]) else u
  }

  /** The cache after a lookup of `login`: fetched and stored on a miss, untouched on a hit. */
  function Filled(users: map<string, Value>, api: Api, login: string): (r: map<string, Value>)
    ensures login in r && r[login] == (if login in users then users[login] else Stored(api, login))
    ensures forall l :: l in users ==> l in r && r[l] == users[l]
    ensures r.Keys == users.Keys + {login}
  {
    if login in users then users else users[login := Stored(api, login)]
  }

  /**
   * `user[key]` when the freshly stored user has the key, None when it does not; a
   * user that is not a dict could not take its organisations (TypeError).
   */
  function FreshAttribute(api: Api, login: string, key: string): Result<Value> {
    var s := Stored(api, login);
    if s.Obj? then Ok(Get(s.fields, key)) else Err(TypeError)
  }

  /** The logins of a list of organisations, each of which has to be a dict with a str login. */
  function OrgLogins(orgs: seq<Value>): (r: Result<seq<string>>)
    ensures r.Ok? ==> |r.value| == |orgs|
    ensures r.Ok? ==> forall i :: 0 <= i < |orgs| ==> Member(orgs[i], "login") == Ok(Str(r.value[i]))
    ensures r.Err? ==> exists i :: 0 <= i < |orgs| && (Member(orgs[i], "login").Err? || !Member(orgs[i], "login").value.Str?)
    decreases |orgs|
  {
    if orgs == [] then Ok([])
    else
      var init :- OrgLogins(orgs[..|orgs| - 1]);
      var loginV :- Member(orgs[|orgs| - 1], "login");
      var login :- AsStr(loginV);
      Ok(init + [login])
  }

  /** The organisation logins of a cached user, joined by `;;`. */
  function OrgJoin(user: Value): Result<Value> {
    var orgsV :- Member(user, "orgs");
    var orgs :- AsList(orgsV);
    var logins :- OrgLogins(orgs);
    Ok(Str(Join(logins, OrgSeparator)))
  }

  /** A failure in a prefix of the organisations is the failure of the whole list. */
  lemma {:induction false} OrgLoginsEarlierFailure(orgs: seq<Value>, n: nat)
    requires n <= |orgs| && OrgLogins(orgs[..n]).Err?
    ensures OrgLogins(orgs) == OrgLogins(orgs[..n])
    decreases |orgs| - n
  {
    if n < |orgs| {
      assert orgs[..n + 1][..n] == orgs[..n];
      OrgLoginsEarlierFailure(orgs, n + 1);
    } else {
      assert orgs[..n] == orgs;
    }
  }

  /** Every login followed by the separator. */
  function Terminated(logins: seq<string>): string
    decreases |logins|
  {
    if logins == [] then "" else Terminated(logins[..|logins| - 1]) + logins[|logins| - 1] + OrgSeparator
  }

  /** Dropping the last separator of the terminated logins leaves them joined. */
  lemma {:induction false} TerminatedJoin(logins: seq<string>)
    requires logins != []
    ensures Terminated(logins) == Join(logins, OrgSeparator) + OrgSeparator
    decreases |logins|
  {
    var init := logins[..|logins| - 1];
    var last := logins[|logins| - 1];
    if |logins| > 1 {
      TerminatedJoin(init);
      JoinSnoc(init, OrgSeparator, last);
    }
    assert logins == init + [last];
  }

  /** `company[:-2]`. */
  function DropSeparator(company: string): string {
    if |company| >= 2 then company[..|company| - 2] else ""
  }

  /** The loop of getUserOrg: each login and `;;` appended in turn, the last `;;` cut off. */
  method JoinOrgLogins(orgs: seq<Value>) returns (r: Result<string>)
    ensures r.Ok? <==> OrgLogins(orgs).Ok?
    ensures r.Ok? ==> r.value == Join(OrgLogins(orgs).value, OrgSeparator)
    ensures r.Err? ==> r == OrgLogins(orgs).PropagateFailure()
  {
    var company := "";
    var k := 0;
    while k < |orgs|
      invariant 0 <= k <= |orgs|
      invariant OrgLogins(orgs[..k]).Ok? && company == Terminated(OrgLogins(orgs[..k]).value)
    {
      assert orgs[..k + 1][..k] == orgs[..k];
      var login := Member(orgs[k], "login");
      if login.Err? || !login.value.Str? {
        assert OrgLogins(orgs[..k + 1]).Err?;
        OrgLoginsEarlierFailure(orgs, k + 1);
        return if login.Err? then Err(login.fault) else Err(TypeError);
      }
      company := company + login.value.s + OrgSeparator;
      k := k + 1;
    }
    assert orgs[..|orgs|] == orgs;
    var logins := OrgLogins(orgs).value;
    if logins != [] {
      TerminatedJoin(logins);
      assert DropSeparator(company) == Join(logins, OrgSeparator);
    }
    r := Ok(DropSeparator(company));
  }

  /** The organisations line reads back as the logins when no login holds a `;`. */
  lemma OrgJoinSplits(logins: seq<string>)
    requires logins != []
    requires forall i :: 0 <= i < |logins| ==> ';' !in logins[i]
    ensures Split(Join(logins, OrgSeparator), OrgSeparator) == logins
  {
    JoinSplitText(logins, OrgSeparator);
  }

  /** No organisations join to the empty string. */
  lemma OrgJoinEmpty(user: Value)
    requires user.Obj? && "orgs" in user.fields && user.fields["orgs"] == Arr([])
    ensures OrgJoin(user) == Ok(Str(""))
  {
  }

  /**
   * `(closed_at - created_at)` in days, rounded to two decimals, computed by `days`
   * from the two dates; None when either date is None.
   */
  function TimeToClose(pull: map<string, Value>, days: (Value, Value) -> Result<Value>): Result<Value> {
    var closed :- Field(pull, "closed_at");
    if closed == Null then Ok(Null)
    else
      var created :- Field(pull, "created_at");
      if created == Null then Ok(Null) else days(closed, created)
  }

  /**
   * getUserName, getUserEmail and getUserOrg on one login in that order: the email
   * and organisation lookups are hits once the name lookup has filled the cache.
   */
  function PersonFields(users: map<string, Value>, api: Api, login: Value): (r: Result<(Value, Value, Value)>)
    ensures r.Ok? ==> login.Str? && r.value.1 == Null
    ensures r.Ok? ==> OrgJoin(Filled(users, api, login.s)[login.s]) == Ok(r.value.2)
    ensures r.Ok? ==> if login.s in users then r.value.0 == Null else FreshAttribute(api, login.s, "name") == Ok(r.value.0)
  {
    if !login.Str? then Err(TypeError)
    else
      var name :- if login.s in users then Ok(Null) else FreshAttribute(api, login.s, "name");
      var org :- OrgJoin(Filled(users, api, login.s)[login.s]);
      Ok((name, Null, org))
  }

  /** The record's id, time to close and author fields. */
  function AuthorPart(id: Value, close: Value, login: Value, fields: (Value, Value, Value)): map<string, Value> {
    map["id" := id, "time_to_close_days" := close, "user_login" := login,
      "user_name" := fields.0, "user_email" := fields.1, "user_org" := fields.2]
  }

  /** The record's assignee fields: all None without an assignee. */
  function AssigneePart(users: map<string, Value>, api: Api, assignee: Value): Result<map<string, Value>> {
    if assignee == Null then Ok(map["assignee_name" := Null]["assignee_login" := Null]["assignee_email" := Null]["assignee_org" := Null])
    else
      var login :- Member(assignee, "login");
      var fields :- PersonFields(users, api, login);
      Ok(map["assignee_login" := login, "assignee_name" := fields.0, "assignee_email" := fields.1, "assignee_org" := fields.2])
  }

  /** getRichPull's record, computed against the cache as it is filled. */
  function RichPull(users: map<string, Value>, api: Api, pull: map<string, Value>, days: (Value, Value) -> Result<Value>): (r: Result<map<string, Value>>)
    ensures r.Ok? ==> "user" in pull && Member(pull["user"], "login").Ok? && Member(pull["user"], "login").value.Str?
    ensures r.Ok? ==> "assignee" in pull
    ensures r.Ok? && pull["assignee"] != Null ==>
      Member(pull["assignee"], "login").Ok? && Member(pull["assignee"], "login").value.Str?
  {
    var id :- Field(pull, "id");
    var close :- TimeToClose(pull, days);
    var user :- Field(pull, "user");
    var login :- Member(user, "login");
    var author :- PersonFields(users, api, login);
    var assignee :- Field(pull, "assignee");
    var assigneePart :- AssigneePart(Filled(users, api, login.s), api, assignee);
    var rest :- Required(pull, PullFields);
    Ok(AuthorPart(id, close, login, author) + assigneePart + rest)
  }

  /** The cache after a getRichPull that succeeds. */
  function PullUsers(users: map<string, Value>, api: Api, pull: map<string, Value>): map<string, Value>
    requires "user" in pull && Member(pull["user"], "login").Ok? && Member(pull["user"], "login").value.Str?
    requires "assignee" in pull &&
      (pull["assignee"] != Null ==> Member(pull["assignee"], "login").Ok? && Member(pull["assignee"], "login").value.Str?)
  {
    var afterAuthor := Filled(users, api, Member(pull["user"], "login").value.s);
    if pull["assignee"] == Null then afterAuthor
    else Filled(afterAuthor, api, Member(pull["assignee"], "login").value.s)
  }

  /** The global `users` cache and the remote API it is filled from. */
  class UserCache {
    var users: map<string, Value>
    const api: Api

    constructor (users: map<string, Value>, api: Api)
      ensures this.users == users && this.api == api
    {
      this.users := users;
      this.api := api;
    }

    /** Whether `login` is a cached key (a login that is not a str never is). */
    predicate Cached(login: Value)
      reads this
    {
      login.Str? && login.s in users
    }

    /**
     * getGithubUser: None for a None login, with the cache unchanged; otherwise the
     * fetched user is stored and returned with its organisations added. A user that
     * is not a dict stays stored as fetched, and adding its organisations fails.
     */
    method GetGithubUser(login: Value) returns (r: Result<Value>)
      modifies this
      ensures login == Null ==> r == Ok(Null) && users == old(users)
      ensures login != Null && !login.Str? ==> r == Err(TypeError) && users == old(users)
      ensures login.Str? ==> users == old(users)[login.s := Stored(api, login.s)]
      ensures login.Str? ==> r == (if api.user(login.s).Obj? then Ok(Stored(api, login.s)) else Err(TypeError))
    {
      if login == Null {
        return Ok(Null);
      }
      if !login.Str? {
        return Err(TypeError);
      }
      var user := api.user(login.s);
      users := users[login.s := user];
      var orgs := api.orgs(login.s);
      if !user.Obj? {
        return Err(TypeError);
      }
      var stored := Obj(user.fields["orgs" := orgs]);
      users := users[login.s := stored];
      r := Ok(stored);
    }

    /**
     * The shape shared by getUserEmail and getUserName: None on a cache hit, the
     * fetched user's `key` (None when it lacks it) on a miss.
     */
    method UserAttribute(login: Value, key: string) returns (r: Result<Value>)
      modifies this
      ensures old(Cached(login)) ==> r == Ok(Null) && users == old(users)
      ensures !old(Cached(login)) && !login.Str? ==> r == Err(TypeError) && users == old(users)
      ensures !old(Cached(login)) && login.Str? ==>
        r == FreshAttribute(api, login.s, key) && users == Filled(old(users), api, login.s)
    {
      if Cached(login) {
        return Ok(Null);
      }
      if login.Arr? || login.Obj? {
        return Err(TypeError);
      }
      var user := GetGithubUser(login);
      if user.Err? {
        return Err(user.fault);
      }
      if !user.value.Obj? {
        return Err(TypeError);
      }
      r := Ok(Get(user.value.fields, key));
    }

    /** getUserEmail. */
    method GetUserEmail(login: Value) returns (r: Result<Value>)
      modifies this
      ensures old(Cached(login)) ==> r == Ok(Null) && users == old(users)
      ensures !old(Cached(login)) && !login.Str? ==> r == Err(TypeError) && users == old(users)
      ensures !old(Cached(login)) && login.Str? ==>
        r == FreshAttribute(api, login.s, "email") && users == Filled(old(users), api, login.s)
    {
      r := UserAttribute(login, "email");
    }

    /** getUserName. */
    method GetUserName(login: Value) returns (r: Result<Value>)
      modifies this
      ensures old(Cached(login)) ==> r == Ok(Null) && users == old(users)
      ensures !old(Cached(login)) && !login.Str? ==> r == Err(TypeError) && users == old(users)
      ensures !old(Cached(login)) && login.Str? ==>
        r == FreshAttribute(api, login.s, "name") && users == Filled(old(users), api, login.s)
    {
      r := UserAttribute(login, "name");
    }

    /**
     * getUserOrg: the fetched user's company on a miss when it names one, and
     * otherwise (always on a hit) the cached user's organisation logins joined by `;;`.
     */
    method GetUserOrg(login: Value) returns (r: Result<Value>)
      modifies this
      ensures !old(Cached(login)) && !login.Str? ==> r == Err(TypeError) && users == old(users)
      ensures login.Str? ==> users == Filled(old(users), api, login.s)
      ensures old(Cached(login)) ==> r == OrgJoin(users[login.s])
      ensures !old(Cached(login)) && login.Str? ==>
        r == (match FreshAttribute(api, login.s, "company")
              case Err(f) => Err(f)
              case Ok(company) => if company != Null then Ok(company) else OrgJoin(Stored(api, login.s)))
    {
      var company := UserAttribute(login, "company");
      if company.Err? {
        return Err(company.fault);
      }
      if company.value != Null {
        return Ok(company.value);
      }
      var orgsV := Member(users[login.s], "orgs");
      if orgsV.Err? {
        return Err(orgsV.fault);
      }
      if !orgsV.value.Arr? {
        return Err(TypeError);
      }
      var joined := JoinOrgLogins(orgsV.value.items);
      if joined.Err? {
        return Err(joined.fault);
      }
      r := Ok(Str(joined.value));
    }

    /** The user fields of a login, looked up in the order getRichPull does: name, email, organisations. */
    method UserFields(login: Value) returns (r: Result<(Value, Value, Value)>)
      modifies this
      ensures r == PersonFields(old(users), api, login)
      ensures r.Ok? ==> users == Filled(old(users), api, login.s)
    {
      var name := GetUserName(login);
      if name.Err? {
        return Err(name.fault);
      }
      var email := GetUserEmail(login);
      assert email == Ok(Null);
      var org := GetUserOrg(login);
      if org.Err? {
        return Err(org.fault);
      }
      r := Ok((name.value, email.value, org.value));
    }

    /** The assignee part of getRichPull. */
    method GetAssigneePart(assignee: Value) returns (r: Result<map<string, Value>>)
      modifies this
      ensures r == AssigneePart(old(users), api, assignee)
      ensures r.Ok? && assignee != Null ==> users == Filled(old(users), api, Member(assignee, "login").value.s)
      ensures r.Ok? && assignee == Null ==> users == old(users)
    {
      if assignee == Null {
        return Ok(map["assignee_name" := Null]["assignee_login" := Null]["assignee_email" := Null]["assignee_org" := Null]);
      }
      var login := Member(assignee, "login");
      if login.Err? {
        return Err(login.fault);
      }
      var fields := UserFields(login.value);
      if fields.Err? {
        return Err(fields.fault);
      }
      r := Ok(map["assignee_login" := login.value, "assignee_name" := fields.value.0,
        "assignee_email" := fields.value.1, "assignee_org" := fields.value.2]);
    }

    /** getRichPull, and the cache it leaves: the author's login filled, then the assignee's. */
    method GetRichPull(pull: map<string, Value>, days: (Value, Value) -> Result<Value>) returns (r: Result<map<string, Value>>)
      modifies this
      ensures r == RichPull(old(users), api, pull, days)
      ensures r.Ok? ==> users == PullUsers(old(users), api, pull)
    {
      if "id" !in pull {
        return Err(KeyError("id"));
      }
      var close := TimeToClose(pull, days);
      if close.Err? {
        return Err(close.fault);
      }
      if "user" !in pull {
        return Err(KeyError("user"));
      }
      var login := Member(pull["user"], "login");
      if login.Err? {
        return Err(login.fault);
      }
      var author := UserFields(login.value);
      if author.Err? {
        return Err(author.fault);
      }
      var rich := AuthorPart(pull["id"], close.value, login.value, author.value);
      if "assignee" !in pull {
        return Err(KeyError("assignee"));
      }
      var assigneePart := GetAssigneePart(pull["assignee"]);
      if assigneePart.Err? {
        return Err(assigneePart.fault);
      }
      rich := rich + assigneePart.value;
      var rest := Required(pull, PullFields);
      if rest.Err? {
        return Err(rest.fault);
      }
      r := Ok(rich + rest.value);
    }
  }

  /** The fields copied after the user and assignee ones, each of which the pull request has to have. */
  function Required(pull: map<string, Value>, fields: seq<string>): (r: Result<map<string, Value>>)
    ensures r.Ok? <==> forall f :: f in fields ==> f in pull
    ensures r.Ok? ==> r.value.Keys == (set f | f in fields) && forall f :: f in fields ==> r.value[f] == pull[f]
    decreases |fields|
  {
    if fields == [] then Ok(map[])
    else
      var init :- Required(pull, fields[..|fields| - 1]);
      var last := fields[|fields| - 1];
      assert forall f :: f in fields ==> f in fields[..|fields| - 1] || f == last;
      if last in pull then Ok(init[last := pull[last]]) else Err(KeyError(last))
  }

  /** A user fetched by getUserName is cached, so the email and organisation lookups after it are hits. */
  lemma NameThenHit(users: map<string, Value>, api: Api, login: string)
    ensures login in Filled(users, api, login)
    ensures Filled(Filled(users, api, login), api, login) == Filled(users, api, login)
  {
  }

  /** The keys of the author part and of the assignee part. */
  const AuthorKeys := {"id", "time_to_close_days", "user_login", "user_name", "user_email", "user_org"}
  const AssigneeKeys := {"assignee_login", "assignee_name", "assignee_email", "assignee_org"}

  /** The three parts of the record have no key in common. */
  lemma PartKeysApart()
    ensures forall k :: k in AuthorKeys ==> k !in AssigneeKeys && k !in PullFields
    ensures forall k :: k in AssigneeKeys ==> k !in PullFields
  {
  }

  /** The author part has the six author keys. */
  lemma AuthorPartKeys(id: Value, close: Value, login: Value, fields: (Value, Value, Value))
    ensures AuthorPart(id, close, login, fields).Keys == AuthorKeys
  {
  }

  /** The assignee part has the four assignee keys, with or without an assignee. */
  lemma AssigneePartKeys(users: map<string, Value>, api: Api, assignee: Value)
    requires AssigneePart(users, api, assignee).Ok?
    ensures AssigneePart(users, api, assignee).value.Keys == AssigneeKeys
  {
  }

  /** Three parts with no key in common each keep their values in the union. */
  lemma UnionParts(a: map<string, Value>, b: map<string, Value>, c: map<string, Value>)
    requires forall k :: k in a ==> k !in b && k !in c
    requires forall k :: k in b ==> k !in c
    ensures Extends(a + b + c, a) && Extends(a + b + c, b) && Extends(a + b + c, c)
  {
  }

  /** The record's parts as they make it up: each part's keys keep their values. */
  lemma RichPullParts(users: map<string, Value>, api: Api, pull: map<string, Value>, days: (Value, Value) -> Result<Value>)
    requires RichPull(users, api, pull, days).Ok?
    ensures var r := RichPull(users, api, pull, days).value;
      var login := Member(pull["user"], "login").value;
      var a := AuthorPart(pull["id"], TimeToClose(pull, days).value, login, PersonFields(users, api, login).value);
      var b := AssigneePart(Filled(users, api, login.s), api, pull["assignee"]).value;
      var c := Required(pull, PullFields).value;
      Extends(r, a) && Extends(r, b) && Extends(r, c)
  {
    var login := Member(pull["user"], "login").value;
    var a := AuthorPart(pull["id"], TimeToClose(pull, days).value, login, PersonFields(users, api, login).value);
    var b := AssigneePart(Filled(users, api, login.s), api, pull["assignee"]).value;
    var c := Required(pull, PullFields).value;
    assert RichPull(users, api, pull, days).value == a + b + c;
    PartKeysApart();
    AuthorPartKeys(pull["id"], TimeToClose(pull, days).value, login, PersonFields(users, api, login).value);
    AssigneePartKeys(Filled(users, api, login.s), api, pull["assignee"]);
    UnionParts(a, b, c);
  }

  /**
   * getRichPull copies the id and the other pull request fields unchanged and the
   * time to close as computed.
   */
  lemma RichPullCopies(users: map<string, Value>, api: Api, pull: map<string, Value>, days: (Value, Value) -> Result<Value>)
    requires RichPull(users, api, pull, days).Ok?
    ensures var r := RichPull(users, api, pull, days).value;
      "id" in pull && "id" in r && r["id"] == pull["id"] &&
      "time_to_close_days" in r && TimeToClose(pull, days) == Ok(r["time_to_close_days"]) &&
      forall f :: f in PullFields ==> f in pull && f in r && r[f] == pull[f]
  {
    RichPullParts(users, api, pull, days);
  }

  /**
   * The author's name is fetched, so the email lookup after it is a hit and gives
   * None, and the organisation lookup is a hit and gives the organisation join.
   */
  lemma RichPullAuthor(users: map<string, Value>, api: Api, pull: map<string, Value>, days: (Value, Value) -> Result<Value>)
    requires RichPull(users, api, pull, days).Ok?
    ensures var r := RichPull(users, api, pull, days).value;
      var login := Member(pull["user"], "login").value;
      "user_login" in r && r["user_login"] == login &&
      "user_name" in r && (if login.s in users then r["user_name"] == Null else FreshAttribute(api, login.s, "name") == Ok(r["user_name"])) &&
      "user_email" in r && r["user_email"] == Null &&
      "user_org" in r && OrgJoin(PullUsers(users, api, pull)[login.s]) == Ok(r["user_org"])
  {
    RichPullParts(users, api, pull, days);
  }

  /** Without an assignee the four assignee fields are None. */
  lemma RichPullNoAssignee(users: map<string, Value>, api: Api, pull: map<string, Value>, days: (Value, Value) -> Result<Value>)
    requires RichPull(users, api, pull, days).Ok? && pull["assignee"] == Null
    ensures var r := RichPull(users, api, pull, days).value;
      "assignee_login" in r && r["assignee_login"] == Null && "assignee_name" in r && r["assignee_name"] == Null &&
      "assignee_email" in r && r["assignee_email"] == Null && "assignee_org" in r && r["assignee_org"] == Null
  {
    RichPullParts(users, api, pull, days);
  }

  /** An assignee's email is None too, and their organisations are joined from the cache. */
  lemma RichPullAssignee(users: map<string, Value>, api: Api, pull: map<string, Value>, days: (Value, Value) -> Result<Value>)
    requires RichPull(users, api, pull, days).Ok? && pull["assignee"] != Null
    ensures var r := RichPull(users, api, pull, days).value;
      var login := Member(pull["assignee"], "login").value;
      "assignee_login" in r && r["assignee_login"] == login &&
      "assignee_email" in r && r["assignee_email"] == Null &&
      "assignee_org" in r && OrgJoin(PullUsers(users, api, pull)[login.s]) == Ok(r["assignee_org"])
  {
    RichPullParts(users, api, pull, days);
  }
}
