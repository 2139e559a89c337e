/**
 * The Twitter enricher: the identity of a tweet's author, the project of a tweet's
 * hashtags and the enriched tweet.
 */
module TwitterEnrich {
  import opened Results
  import opened Json
  import opened Text

  /** get_field_author, get_field_date and get_field_unique_id. */
  const FieldAuthor := "user"
  const FieldDate := "created_at"
  const FieldUniqueId := "id_str"

  /** The tweet fields copied unchanged. */
  const TweetFields := ["id", "id_str", "lang", "place", "retweet_count", "text",
    "in_reply_to_user_id_str", "in_reply_to_screen_name", "metadata__timestamp"]

  /** The author fields copied as `user_` + field. */
  const UserFields := ["created_at", "description", "followers_count", "friends_count", "id_str",
    "lang", "location", "name", "url", "utc_offset", "verified"]

  const UserPrefix := "user_"

  /**
   * What the enricher is configured with: the date parser (text to ISO text, None when
   * it cannot parse), the Sorting Hat fields of a tweet when enabled, the common
   * grimoire fields of a creation date, the projects map with the connector's name in
   * it, the default project, the project levels of a project, and the fields the
   * `@metadata` decorator adds to the returned item.
   */
  datatype Config = Config(
    parseIso: string -> Option<string>,
    sortingHat: Option<map<string, Value> -> map<string, Value>>,
    grimoireFields: Value -> map<string, Value>,
    prjsMap: map<string, map<string, Value>>,
    connector: string,
    defaultProject: Value,
    projectLevels: Value -> map<string, Value>,
    metadata: map<string, Value>)

  // ---------------------------------------------------------------------------
  // get_sh_identity, get_identities
  // ---------------------------------------------------------------------------

  /**
   * get_sh_identity(item, identity_field): no email; the screen name and name of the
   * identity field's record when the item has that field, all None otherwise.
   */
  function ShIdentity(item: map<string, Value>, identityField: Option<string>): (r: Result<Identity>)
    ensures var field := if identityField.Some? then identityField.value else FieldAuthor;
      (field !in item ==> r == Ok(NoIdentity)) &&
      (field in item ==> (
        r.Ok? <==> Member(item[field], "screen_name").Ok? && Member(item[field], "name").Ok?)) &&
      (field in item && r.Ok? ==>
        Member(item[field], "screen_name") == Ok(r.value.username) &&
        Member(item[field], "name") == Ok(r.value.name) && r.value.email == Null)
  {
    var field := if identityField.Some? then identityField.value else FieldAuthor;
    if field in item then
      var username :- Member(item[field], "screen_name");
      var name :- Member(item[field], "name");
      Ok(Identity(username, name, Null))
    else Ok(NoIdentity)
  }

  /** Without an identity field the author is read from `user`. */
  lemma ShIdentityDefault(item: map<string, Value>)
    ensures ShIdentity(item, None) == ShIdentity(item, Some("user"))
    ensures ShIdentity(item, None).Ok? ==> ShIdentity(item, None).value.email == Null
  {
  }

  /** get_identities: exactly the one identity of the author. */
  function Identities(item: map<string, Value>): (r: Result<seq<Identity>>)
    ensures r.Err? <==> ShIdentity(item, None).Err?
    ensures r.Ok? ==> |r.value| == 1 && r.value[0] == ShIdentity(item, None).value
  {
    var user :- ShIdentity(item, None);
    Ok([user])
  }

  // ---------------------------------------------------------------------------
  // get_item_project
  // ---------------------------------------------------------------------------

  /** `tag in d` for a dict with str keys: a list or dict tag cannot be hashed. */
  function TagIn(tag: Value, d: map<string, Value>): Result<bool> {
    match tag
    case Arr(_) => Err(TypeError)
    case Obj(_) => Err(TypeError)
    case Str(s) => Ok(s in d)
    case _ => Ok(false)
  }

  /** A tag that names an entry of `d`. */
  predicate Matches(tag: Value, d: map<string, Value>) {
    tag.Str? && tag.s in d
  }

  /** A tag that `in` can test against a dict. */
  predicate Hashable(tag: Value) {
    !tag.Arr? && !tag.Obj?
  }

  /**
   * The hashtag loop: the entry of the first tag found in `prjs[ds]`, None when no tag
   * is found; `prjs[ds]` is looked up, and can raise, only when there is a tag.
   */
  function FirstProject(tags: seq<Value>, prjs: map<string, map<string, Value>>, ds: string): Result<Value>
    decreases |tags|
  {
    if tags == [] then Ok(Null)
    else if ds !in prjs then Err(KeyError(ds))
    else
      var found :- TagIn(tags[0], prjs[ds]);
      if found then Ok(prjs[ds][tags[0].s]) else FirstProject(tags[1..], prjs, ds)
  }

  /** The first matching tag decides, whatever follows it. */
  lemma {:induction false} FirstProjectAt(tags: seq<Value>, prjs: map<string, map<string, Value>>, ds: string, i: nat)
    requires ds in prjs && i < |tags| && Matches(tags[i], prjs[ds])
    requires forall j :: 0 <= j < i ==> Hashable(tags[j]) && !Matches(tags[j], prjs[ds])
    ensures FirstProject(tags, prjs, ds) == Ok(prjs[ds][tags[i].s])
    decreases i
  {
    if i > 0 {
      assert Hashable(tags[0]) && !Matches(tags[0], prjs[ds]);
      FirstProjectAt(tags[1..], prjs, ds, i - 1);
    }
  }

  /** With no matching tag there is no project. */
  lemma {:induction false} FirstProjectNone(tags: seq<Value>, prjs: map<string, map<string, Value>>, ds: string)
    requires ds in prjs
    requires forall j :: 0 <= j < |tags| ==> Hashable(tags[j]) && !Matches(tags[j], prjs[ds])
    ensures FirstProject(tags, prjs, ds) == Ok(Null)
    decreases |tags|
  {
    if tags != [] {
      assert Hashable(tags[0]) && !Matches(tags[0], prjs[ds]);
      FirstProjectNone(tags[1..], prjs, ds);
    }
  }

  /** `{"project": project}` updated with the project's levels. */
  function ProjectFields(project: Value, c: Config): map<string, Value> {
    map["project" := project] + c.projectLevels(project)
  }

  /** get_item_project: the first hashtag's project, DEFAULT_PROJECT when there is none (or it is None). */
  function ItemProject(eitem: map<string, Value>, c: Config): Result<map<string, Value>> {
    var tagsV :- Field(eitem, "hashtags_analyzed");
    var tags :- AsList(tagsV);
    var project :- FirstProject(tags, c.prjsMap, c.connector);
    Ok(ProjectFields(if project == Null then c.defaultProject else project, c))
  }

  /** get_item_project as the code runs it: a search loop that breaks at the first match. */
  method GetItemProject(eitem: map<string, Value>, c: Config) returns (r: Result<map<string, Value>>)
    ensures r == ItemProject(eitem, c)
  {
    if "hashtags_analyzed" !in eitem {
      return Err(KeyError("hashtags_analyzed"));
    }
    if !eitem["hashtags_analyzed"].Arr? {
      return Err(TypeError);
    }
    var tags := eitem["hashtags_analyzed"].items;
    var project := Null;
    var k := 0;
    while k < |tags|
      invariant 0 <= k <= |tags|
      invariant FirstProject(tags[k..], c.prjsMap, c.connector) == FirstProject(tags, c.prjsMap, c.connector)
    {
      assert tags[k..][0] == tags[k] && tags[k..][1..] == tags[k + 1..];
      if c.connector !in c.prjsMap {
        return Err(KeyError(c.connector));
      }
      var found := TagIn(tags[k], c.prjsMap[c.connector]);
      if found.Err? {
        return Err(found.fault);
      }
      if found.value {
        project := c.prjsMap[c.connector][tags[k].s];
        break;
      }
      k := k + 1;
    }
    if project == Null {
      project := c.defaultProject;
    }
    r := Ok(ProjectFields(project, c));
  }

  // ---------------------------------------------------------------------------
  // get_rich_item
  // ---------------------------------------------------------------------------

  /** `tag['text']` for every hashtag, in order. */
  function TagTexts(tags: seq<Value>): (r: Result<seq<Value>>)
    ensures r.Ok? ==> |r.value| == |tags| && forall i :: 0 <= i < |tags| ==> Member(tags[i], "text") == Ok(r.value[i])
    ensures r.Err? ==> exists i :: 0 <= i < |tags| && Member(tags[i], "text").Err?
    decreases |tags|
  {
    if tags == [] then Ok([])
    else
      var init :- TagTexts(tags[..|tags| - 1]);
      var text :- Member(tags[|tags| - 1], "text");
      Ok(init + [text])
  }

  /** The hashtag loop of get_rich_item. */
  method HashtagTexts(tags: seq<Value>) returns (r: Result<seq<Value>>)
    ensures r == TagTexts(tags)
  {
    var texts: seq<Value> := [];
    var k := 0;
    while k < |tags|
      invariant 0 <= k <= |tags|
      invariant TagTexts(tags[..k]) == Ok(texts)
    {
      assert tags[..k + 1][..k] == tags[..k];
      var text := Member(tags[k], "text");
      if text.Err? {
        assert TagTexts(tags[..k + 1]).Err?;
        EarlierFailure(tags, k + 1);
        return Err(text.fault);
      }
      texts := texts + [text.value];
      k := k + 1;
    }
    assert tags[..|tags|] == tags;
    r := Ok(texts);
  }

  /** A failure in a prefix is the failure of the whole list. */
  lemma {:induction false} EarlierFailure(tags: seq<Value>, n: nat)
    requires n <= |tags| && TagTexts(tags[..n]).Err?
    ensures TagTexts(tags) == TagTexts(tags[..n])
    decreases |tags| - n
  {
    if n < |tags| {
      assert tags[..n + 1][..n] == tags[..n];
      EarlierFailure(tags, n + 1);
    } else {
      assert tags[..n] == tags;
    }
  }

  /** `parser.parse(tweet["created_at"]).isoformat()`. */
  function CreatedAt(tweet: map<string, Value>, parseIso: string -> Option<string>): Result<Value> {
    var v :- Field(tweet, FieldDate);
    var text :- AsStr(v);
    match parseIso(text)
    case None => Err(DateError(text))
    case Some(d) => Ok(Str(d))
  }

  /** The tweet's fields, its creation date and the two renamed fields. */
  function TopFields(tweet: map<string, Value>, date: Value): map<string, Value> {
    Copied(tweet, TweetFields, "")[FieldDate := date]["timestamp" := Get(tweet, "@timestamp")]["version" := Get(tweet, "@version")]
  }

  /** The author's fields under `user_`. */
  function UserCopy(user: map<string, Value>): map<string, Value> {
    Copied(user, UserFields, UserPrefix)
  }

  /** `"http://twitter.com/" + screen_name`. */
  function UserUrl(screenName: string): string {
    "http://twitter.com/" + screenName
  }

  /** `"http://twitter.com/" + screen_name + "/status/" + id_str`. */
  function TweetUrl(screenName: string, id: string): string {
    UserUrl(screenName) + "/status/" + id
  }

  /** The derived fields, set after the copies. */
  function Derived(eitem: map<string, Value>, texts: seq<Value>, retweeted: Value, screenName: string, id: string): map<string, Value> {
    eitem["hashtags_analyzed" := Arr(texts)]["retweeted" := Int(if Truthy(retweeted) then 1 else 0)]
      ["url" := Str(TweetUrl(screenName, id))]["user_url_twitter" := Str(UserUrl(screenName))]
  }

  /** `text_analyzed` is the text, when the tweet has one. */
  function WithText(eitem: map<string, Value>, tweet: map<string, Value>): map<string, Value> {
    if "text" in tweet then eitem["text_analyzed" := tweet["text"]] else eitem
  }

  /** The author record of a tweet, which has to be a dict for its screen name to be read. */
  function Author(tweet: map<string, Value>): Result<map<string, Value>> {
    var userV :- Field(tweet, FieldAuthor);
    AsObj(userV)
  }

  /**
   * The author loop `eitem["user_" + f] = tweet['user'][f] if f in tweet['user'] else None`
   * on any kind of author: a dict gives its fields; on a str (substring test) or a list
   * (membership test) a field found there is indexed with a str, a TypeError, and with
   * none found every author field is None; on any other kind `in` raises TypeError.
   */
  function UserPart(userV: Value): Result<map<string, Value>> {
    CopiedFrom(userV, UserFields, UserPrefix)
  }

  /** The hashtag texts of a tweet. */
  function Hashtags(tweet: map<string, Value>): Result<seq<Value>> {
    var entities :- Field(tweet, "entities");
    var hashtags :- Member(entities, "hashtags");
    var tags :- AsList(hashtags);
    TagTexts(tags)
  }

  /** The enriched tweet before the Sorting Hat, grimoire and project updates. */
  function TweetBase(tweet: map<string, Value>, c: Config): Result<map<string, Value>> {
    var date :- CreatedAt(tweet, c.parseIso);
    var userV :- Field(tweet, FieldAuthor);
    if !userV.Obj? then NonDictAuthorBase(tweet, userV)
    else
      var user := userV.fields;
      var texts :- Hashtags(tweet);
      var retweeted :- Field(tweet, "retweeted");
      var screenNameV :- Field(user, "screen_name");
      var screenName :- AsStr(screenNameV);
      var idV :- Field(tweet, FieldUniqueId);
      var id :- AsStr(idV);
      Ok(Derived(WithText(TopFields(tweet, date) + UserCopy(user), tweet), texts, retweeted, screenName, id))
  }

  /**
   * The rest of get_rich_item when the author is not a dict: the author loop, the
   * hashtags and `retweeted` in turn, and at the latest `tweet['user']['screen_name']`
   * raises TypeError, so the tweet is never enriched.
   */
  function NonDictAuthorBase(tweet: map<string, Value>, userV: Value): (r: Result<map<string, Value>>)
    requires !userV.Obj?
    ensures r.Err?
    ensures UserPart(userV).Ok? && Hashtags(tweet).Ok? && "retweeted" in tweet ==> r == Err(TypeError)
  {
    var userPart :- UserPart(userV);
    var texts :- Hashtags(tweet);
    var retweeted :- Field(tweet, "retweeted");
    Err(TypeError)
  }

  /** The updates: Sorting Hat fields when enabled, the grimoire fields, the project when there is a map. */
  function Updated(eitem: map<string, Value>, tweet: map<string, Value>, c: Config): Result<map<string, Value>> {
    var withSh := if c.sortingHat.Some? then eitem + c.sortingHat.value(tweet) else eitem;
    var withDates := withSh + c.grimoireFields(Get(tweet, FieldDate));
    if c.prjsMap != map[] then
      var more :- ItemProject(withDates, c);
      Ok(withDates + more)
    else Ok(withDates)
  }

  /** get_rich_item, with the `@metadata` decorator's fields added to what it returns. */
  function RichTweet(tweet: map<string, Value>, c: Config): Result<map<string, Value>> {
    var base :- TweetBase(tweet, c);
    var eitem :- Updated(base, tweet, c);
    Ok(eitem + c.metadata)
  }

  /** The first copying loop of get_rich_item, with the date and the renamed fields. */
  method CopyTop(tweet: map<string, Value>, date: Value) returns (top: map<string, Value>)
    ensures top == TopFields(tweet, date)
  {
    top := CopyFields(tweet, TweetFields, "");
    top := top[FieldDate := date];
    top := top["timestamp" := Get(tweet, "@timestamp")]["version" := Get(tweet, "@version")];
  }

  /** The second copying loop of get_rich_item, over the author whatever its kind. */
  method CopyUser(userV: Value) returns (r: Result<map<string, Value>>)
    ensures r == UserPart(userV)
  {
    r := CopyFieldsFrom(userV, UserFields, UserPrefix);
  }

  /** `text_analyzed` set from the tweet's text, when it has one. */
  method AddText(eitem: map<string, Value>, tweet: map<string, Value>) returns (r: map<string, Value>)
    ensures r == WithText(eitem, tweet)
  {
    r := eitem;
    if "text" in tweet {
      r := r["text_analyzed" := tweet["text"]];
    }
  }

  /** The hashtag loop of get_rich_item, with its lookups. */
  method GetHashtags(tweet: map<string, Value>) returns (r: Result<seq<Value>>)
    ensures r == Hashtags(tweet)
  {
    if "entities" !in tweet {
      return Err(KeyError("entities"));
    }
    var hashtags := Member(tweet["entities"], "hashtags");
    if hashtags.Err? {
      return Err(hashtags.fault);
    }
    if !hashtags.value.Arr? {
      return Err(TypeError);
    }
    r := HashtagTexts(hashtags.value.items);
  }

  /** get_rich_item's field-by-field construction, up to the updates. */
  method BuildBase(tweet: map<string, Value>, c: Config) returns (r: Result<map<string, Value>>)
    ensures r == TweetBase(tweet, c)
  {
    var date := CreatedAt(tweet, c.parseIso);
    if date.Err? {
      return Err(date.fault);
    }
    if FieldAuthor !in tweet {
      return Err(KeyError(FieldAuthor));
    }
    var userV := tweet[FieldAuthor];
    var top := CopyTop(tweet, date.value);
    var userPart := CopyUser(userV);
    if userPart.Err? {
      return Err(userPart.fault);
    }
    var eitem := AddText(top + userPart.value, tweet);
    var texts := GetHashtags(tweet);
    if texts.Err? {
      return Err(texts.fault);
    }
    if "retweeted" !in tweet {
      return Err(KeyError("retweeted"));
    }
    var screenName := Member(userV, "screen_name");
    if screenName.Err? || !screenName.value.Str? {
      return if screenName.Err? then Err(screenName.fault) else Err(TypeError);
    }
    var id := Field(tweet, FieldUniqueId);
    if id.Err? || !id.value.Str? {
      return if id.Err? then Err(id.fault) else Err(TypeError);
    }
    r := Ok(Derived(eitem, texts.value, tweet["retweeted"], screenName.value.s, id.value.s));
  }

  /** get_rich_item as the code runs it. */
  method GetRichItem(tweet: map<string, Value>, c: Config) returns (r: Result<map<string, Value>>)
    ensures r == RichTweet(tweet, c)
  {
    var base := BuildBase(tweet, c);
    if base.Err? {
      return Err(base.fault);
    }
    var eitem := base.value;
    if c.sortingHat.Some? {
      eitem := eitem + c.sortingHat.value(tweet);
    }
    eitem := eitem + c.grimoireFields(Get(tweet, FieldDate));
    if c.prjsMap != map[] {
      var more := GetItemProject(eitem, c);
      if more.Err? {
        return Err(more.fault);
      }
      eitem := eitem + more.value;
    }
    r := Ok(eitem + c.metadata);
  }

  // ---------------------------------------------------------------------------
  // What the enriched tweet holds
  // ---------------------------------------------------------------------------

  /** The keys set after the tweet copy, by TopFields. */
  const Renamed := {"created_at", "timestamp", "version"}

  /** The keys set after the author copy, by WithText and Derived. */
  const DerivedKeys := {"text_analyzed", "hashtags_analyzed", "retweeted", "url", "user_url_twitter"}

  /** A key of the author copy: `user_` followed by one of the author fields. */
  predicate UserKey(k: string) {
    |UserPrefix| <= |k| && k[..|UserPrefix|] == UserPrefix && k[|UserPrefix|..] in UserFields
  }

  /** A key of the author copy begins with `u`. */
  lemma UserKeyHead(k: string)
    requires UserKey(k)
    ensures |k| > 0 && k[0] == 'u'
  {
    assert k[..|UserPrefix|][0] == k[0];
  }

  /** No copied tweet field begins with `u` or is set again later. */
  lemma TweetFieldsApart(f: string)
    requires f in TweetFields
    ensures |f| > 0 && f[0] != 'u' && f !in Renamed && f !in DerivedKeys
  {
  }

  /** The renamed keys begin with no `u` and are not set again. */
  lemma RenamedApart(k: string)
    requires k in Renamed
    ensures |k| > 0 && k[0] != 'u' && k !in DerivedKeys
  {
  }

  /** No key set after the author copy is an author key. */
  lemma DerivedApart(k: string)
    requires k in DerivedKeys
    ensures !UserKey(k)
  {
    if k == "user_url_twitter" {
      assert k[|UserPrefix|..] == "url_twitter";
    } else if k != "url" {
      assert k[0] != 'u';
      if UserKey(k) {
        UserKeyHead(k);
      }
    }
  }

  /** A copy followed by the three renamed keys, none of them a copied field. */
  lemma CopiedThenRenamed(src: map<string, Value>, fields: seq<string>, date: Value)
    requires forall f :: f in fields ==> f !in Renamed
    ensures var t := Copied(src, fields, "")[FieldDate := date]["timestamp" := Get(src, "@timestamp")]["version" := Get(src, "@version")];
      t.Keys == (set f | f in fields) + Renamed &&
      (forall f :: f in fields ==> t[f] == Get(src, f)) &&
      t[FieldDate] == date && t["timestamp"] == Get(src, "@timestamp") && t["version"] == Get(src, "@version")
  {
    CopiedPlain(src, fields);
  }

  /** The tweet copy with the renamed fields: copies first, then the three renamed keys. */
  lemma TopFieldsShape(tweet: map<string, Value>, date: Value)
    ensures var t := TopFields(tweet, date);
      t.Keys == (set f | f in TweetFields) + Renamed &&
      (forall f :: f in TweetFields ==> t[f] == Get(tweet, f)) &&
      t[FieldDate] == date && t["timestamp"] == Get(tweet, "@timestamp") && t["version"] == Get(tweet, "@version")
  {
    forall f | f in TweetFields ensures f !in Renamed {
      TweetFieldsApart(f);
    }
    CopiedThenRenamed(tweet, TweetFields, date);
  }

  /** The author copy sets no key of the tweet copy. */
  lemma UserKeysApart(tweet: map<string, Value>, date: Value, user: map<string, Value>)
    ensures forall k :: k in UserCopy(user) ==> k !in TopFields(tweet, date) && UserKey(k)
  {
    TopFieldsShape(tweet, date);
    forall k | k in UserCopy(user) ensures k !in TopFields(tweet, date) && UserKey(k) {
      CopiedKeyOf(user, UserFields, UserPrefix, k);
      UserKeyHead(k);
      if k in TweetFields {
        TweetFieldsApart(k);
      }
      if k in Renamed {
        RenamedApart(k);
      }
    }
  }

  /** WithText and Derived set only the derived keys. */
  lemma DerivedKeeps(p: map<string, Value>, tweet: map<string, Value>, texts: seq<Value>, retweeted: Value, screenName: string, id: string)
    ensures var b := Derived(WithText(p, tweet), texts, retweeted, screenName, id);
      (forall k :: k in p && k !in DerivedKeys ==> k in b && b[k] == p[k]) &&
      ("text_analyzed" in b <==> "text" in tweet || "text_analyzed" in p) &&
      ("text" in tweet ==> b["text_analyzed"] == tweet["text"]) &&
      b["hashtags_analyzed"] == Arr(texts) &&
      b["retweeted"] == Int(if Truthy(retweeted) then 1 else 0) &&
      b["url"] == Str(TweetUrl(screenName, id)) && b["user_url_twitter"] == Str(UserUrl(screenName))
  {
  }

  /** Both copies survive the derived keys, when the author copy only has author keys. */
  lemma AssembledKeeps(t: map<string, Value>, u: map<string, Value>, tweet: map<string, Value>, texts: seq<Value>, retweeted: Value, screenName: string, id: string)
    requires forall k :: k in t ==> k in TweetFields || k in Renamed
    requires forall k :: k in u ==> k !in t && UserKey(k)
    ensures var b := Derived(WithText(t + u, tweet), texts, retweeted, screenName, id);
      (forall k :: k in t ==> k in b && b[k] == t[k]) &&
      (forall k :: k in u ==> k in b && b[k] == u[k]) &&
      ("text_analyzed" in b <==> "text" in tweet)
  {
    DerivedKeeps(t + u, tweet, texts, retweeted, screenName, id);
    forall k | k in t ensures k !in DerivedKeys {
      if k in TweetFields {
        TweetFieldsApart(k);
      } else {
        RenamedApart(k);
      }
    }
    forall k | k in u ensures k !in DerivedKeys {
      if k in DerivedKeys {
        DerivedApart(k);
      }
    }
  }

  /**
   * The enriched tweet before the updates: every copied tweet field (None when
   * absent), the parsed date, the renamed fields, every author field under `user_`,
   * the text, the hashtag texts in order and the retweet flag as 0 or 1.
   */
  lemma TweetBaseFields(tweet: map<string, Value>, c: Config)
    requires TweetBase(tweet, c).Ok?
    ensures CreatedAt(tweet, c.parseIso).Ok? && Author(tweet).Ok? && Hashtags(tweet).Ok? && "retweeted" in tweet
    ensures var b := TweetBase(tweet, c).value;
      var user := Author(tweet).value;
      (forall f :: f in TweetFields ==> f in b && b[f] == Get(tweet, f)) &&
      FieldDate in b && Ok(b[FieldDate]) == CreatedAt(tweet, c.parseIso) &&
      "timestamp" in b && b["timestamp"] == Get(tweet, "@timestamp") &&
      "version" in b && b["version"] == Get(tweet, "@version") &&
      (forall f :: f in UserFields ==> UserPrefix + f in b && b[UserPrefix + f] == Get(user, f)) &&
      ("text_analyzed" in b <==> "text" in tweet) &&
      ("text" in tweet ==> b["text_analyzed"] == tweet["text"]) &&
      b["hashtags_analyzed"] == Arr(Hashtags(tweet).value) &&
      b["retweeted"] == Int(if Truthy(tweet["retweeted"]) then 1 else 0)
  {
    var date := CreatedAt(tweet, c.parseIso).value;
    var user := Author(tweet).value;
    var t := TopFields(tweet, date);
    var u := UserCopy(user);
    var texts := Hashtags(tweet).value;
    var sn := user["screen_name"].s;
    var id := tweet[FieldUniqueId].s;
    assert TweetBase(tweet, c).value == Derived(WithText(t + u, tweet), texts, tweet["retweeted"], sn, id);
    TopFieldsShape(tweet, date);
    UserKeysApart(tweet, date, user);
    AssembledKeeps(t, u, tweet, texts, tweet["retweeted"], sn, id);
    DerivedKeeps(t + u, tweet, texts, tweet["retweeted"], sn, id);
  }

  /** The tweet's URL is built from the author's screen name and the tweet's id. */
  lemma TweetBaseUrls(tweet: map<string, Value>, c: Config)
    requires TweetBase(tweet, c).Ok?
    ensures Author(tweet).Ok? && "screen_name" in Author(tweet).value && Author(tweet).value["screen_name"].Str?
    ensures FieldUniqueId in tweet && tweet[FieldUniqueId].Str?
    ensures var b := TweetBase(tweet, c).value;
      var sn := Author(tweet).value["screen_name"].s;
      "url" in b && b["url"] == Str("http://twitter.com/" + sn + "/status/" + tweet[FieldUniqueId].s) &&
      "user_url_twitter" in b && b["user_url_twitter"] == Str("http://twitter.com/" + sn)
  {
  }

  /** get_rich_item fails exactly when one of its lookups, conversions or parses does. */
  lemma TweetBaseFails(tweet: map<string, Value>, c: Config)
    ensures TweetBase(tweet, c).Err? <==>
      CreatedAt(tweet, c.parseIso).Err? || Author(tweet).Err? || Hashtags(tweet).Err? ||
      "retweeted" !in tweet ||
      AsStr(Get(Author(tweet).value, "screen_name")).Err? || "screen_name" !in Author(tweet).value ||
      AsStr(Get(tweet, FieldUniqueId)).Err? || FieldUniqueId !in tweet
  {
  }

  /**
   * A str author too short to contain an author field name passes every `in` test of the
   * author loop, so a tweet without `entities` stops at `tweet['entities']` with KeyError.
   */
  lemma TextAuthorWithoutEntities(tweet: map<string, Value>, c: Config, s: string)
    requires CreatedAt(tweet, c.parseIso).Ok? && FieldAuthor in tweet && tweet[FieldAuthor] == Str(s)
    requires |s| < 3 && "entities" !in tweet
    ensures TweetBase(tweet, c) == Err(KeyError("entities"))
  {
    forall k | 0 <= k < |UserFields| ensures !KeyIn(UserFields[k], Str(s)) {
      assert |UserFields[k]| >= 3;
    }
    assert UserPart(Str(s)).Ok?;
  }

  /** A str author that contains an author field name raises TypeError in the author loop. */
  lemma TextAuthorNamingField(tweet: map<string, Value>, c: Config, s: string, k: nat)
    requires CreatedAt(tweet, c.parseIso).Ok? && FieldAuthor in tweet && tweet[FieldAuthor] == Str(s)
    requires k < |UserFields| && Contains(s, UserFields[k])
    ensures TweetBase(tweet, c) == Err(TypeError)
  {
    assert !NoneIn(UserFields, Str(s));
  }

  /** When a hashtag names a project, the first such hashtag's project is the item's. */
  lemma ItemProjectFound(eitem: map<string, Value>, c: Config, i: nat)
    requires "hashtags_analyzed" in eitem && eitem["hashtags_analyzed"].Arr?
    requires var tags := eitem["hashtags_analyzed"].items;
      c.connector in c.prjsMap && i < |tags| && Matches(tags[i], c.prjsMap[c.connector]) &&
      c.prjsMap[c.connector][tags[i].s] != Null &&
      forall j :: 0 <= j < i ==> Hashable(tags[j]) && !Matches(tags[j], c.prjsMap[c.connector])
    ensures var tags := eitem["hashtags_analyzed"].items;
      ItemProject(eitem, c) == Ok(ProjectFields(c.prjsMap[c.connector][tags[i].s], c))
  {
    FirstProjectAt(eitem["hashtags_analyzed"].items, c.prjsMap, c.connector, i);
  }

  /** When no hashtag names a project, or there is no hashtag, the item gets the default project. */
  lemma ItemProjectDefault(eitem: map<string, Value>, c: Config)
    requires "hashtags_analyzed" in eitem && eitem["hashtags_analyzed"].Arr?
    requires var tags := eitem["hashtags_analyzed"].items;
      tags == [] ||
      (c.connector in c.prjsMap && forall j :: 0 <= j < |tags| ==> Hashable(tags[j]) && !Matches(tags[j], c.prjsMap[c.connector]))
    ensures ItemProject(eitem, c) == Ok(ProjectFields(c.defaultProject, c))
  {
    if eitem["hashtags_analyzed"].items != [] {
      FirstProjectNone(eitem["hashtags_analyzed"].items, c.prjsMap, c.connector);
    }
  }

  /** With hashtags, a connector missing from the projects map is a KeyError. */
  lemma ItemProjectNoConnector(eitem: map<string, Value>, c: Config)
    requires "hashtags_analyzed" in eitem && eitem["hashtags_analyzed"].Arr?
    requires eitem["hashtags_analyzed"].items != [] && c.connector !in c.prjsMap
    ensures ItemProject(eitem, c) == Err(KeyError(c.connector))
  {
  }

  /**
   * The updates of get_rich_item keep every base key they do not set, each later update
   * wins over the earlier ones (Sorting Hat, grimoire fields, project fields), and the
   * decorator's fields, added last, are all the item's.
   */
  lemma RichTweetKeeps(tweet: map<string, Value>, c: Config)
    requires RichTweet(tweet, c).Ok?
    ensures TweetBase(tweet, c).Ok?
    ensures var b := TweetBase(tweet, c).value;
      var r := RichTweet(tweet, c).value;
      var sh := if c.sortingHat.Some? then c.sortingHat.value(tweet) else map[];
      var g := c.grimoireFields(Get(tweet, FieldDate));
      var prj := if c.prjsMap != map[] then ItemProject(b + sh + g, c) else Ok(map[]);
      var md := c.metadata;
      prj.Ok? &&
      (forall k :: k in b && k !in sh && k !in g && k !in prj.value && k !in md ==> k in r && r[k] == b[k]) &&
      (forall k :: k in sh && k !in g && k !in prj.value && k !in md ==> k in r && r[k] == sh[k]) &&
      (forall k :: k in g && k !in prj.value && k !in md ==> k in r && r[k] == g[k]) &&
      (forall k :: k in prj.value && k !in md ==> k in r && r[k] == prj.value[k]) &&
      (forall k :: k in md ==> k in r && r[k] == md[k])
  {
  }
}
