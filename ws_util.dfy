/** api_backup/ws_util.py: the websocket utilities shared by every worker —
    broadcast publishing, the per-session wizard form store, relay service
    presence, session token checks and activity replies. */
module WsUtil {
  import opened Json
  import opened Strings
  import opened Relay
  import opened BroadcastTree
  import opened SystemConfig

  /** session id -> template -> item -> value */
  type Forms = map<string, map<string, map<string, Json>>>

  /** The form item with set-like semantics. */
  const ShipsItem := "ships"

  /** `timedelta(days=30)` in seconds. */
  const ThirtyDays := 2592000

  //
  //  Activity replies
  //

  /** `make_activity` before `json.dumps`: `{"activity": {id: {"message", "status_code"[, "token"]}}}`;
      the token is attached only when it is truthy. */
  function MakeActivity(id: string, statusCode: int, msg: Json, token: Json): (r: Json)
    ensures r.JObj? && r.fields.Keys == {"activity"} && r.fields["activity"].JObj?
    ensures r.fields["activity"].fields.Keys == {id}
    ensures var entry := r.fields["activity"].fields[id];
      && entry.JObj?
      && entry.fields.Keys == (if Truthy(token) then {"message", "status_code", "token"} else {"message", "status_code"})
      && entry.fields["message"] == msg
      && entry.fields["status_code"] == JNum(statusCode)
      && (Truthy(token) ==> entry.fields["token"] == token)
  {
    var entry := map["message" := msg, "status_code" := JNum(statusCode)];
    var entry' := if Truthy(token) then entry["token" := token] else entry;
    JObj(map["activity" := JObj(map[id := JObj(entry')])])
  }

  //
  //  Form store: the "ships" toggle
  //

  predicate NoDup(s: seq<Json>)
  {
    forall i, j :: 0 <= i < j < |s| ==> s[i] != s[j]
  }

  /** One step of the toggle loop: remove when present, append when absent. */
  function Toggle(list: seq<Json>, x: Json): seq<Json>
  {
    if x in list then RemoveFirst(list, x) else list + [x]
  }

  /** The toggle loop run over `vals` in order. */
  function ToggleAll(list: seq<Json>, vals: seq<Json>): seq<Json>
    decreases |vals|
  {
    if vals == [] then list
    else Toggle(ToggleAll(list, vals[..|vals| - 1]), vals[|vals| - 1])
  }

  /** On a list without repetitions, removing `x` removes exactly `x`. */
  lemma {:induction false} RemoveFirstNoDup(list: seq<Json>, x: Json)
    requires x in list && NoDup(list)
    ensures NoDup(RemoveFirst(list, x))
    ensures forall y :: y in RemoveFirst(list, x) <==> y in list && y != x
  {
    assert list == [list[0]] + list[1..];
    var tail := list[1..];
    assert NoDup(tail) by {
      forall i, j | 0 <= i < j < |tail| ensures tail[i] != tail[j] {
        assert tail[i] == list[i + 1] && tail[j] == list[j + 1];
      }
    }
    assert list[0] !in tail by {
      forall j | 0 <= j < |tail| ensures tail[j] != list[0] {
        assert tail[j] == list[j + 1];
      }
    }
    if list[0] != x {
      var r := RemoveFirst(tail, x);
      RemoveFirstNoDup(tail, x);
      assert RemoveFirst(list, x) == [list[0]] + r;
      assert list[0] !in r;
      var full := [list[0]] + r;
      forall i, j | 0 <= i < j < |full| ensures full[i] != full[j] {
        if i > 0 {
          assert full[i] == r[i - 1] && full[j] == r[j - 1];
        } else {
          assert full[j] == r[j - 1];
        }
      }
    }
  }

  /** A toggle step keeps a list repetition-free and flips membership of `x` only. */
  lemma ToggleNoDup(list: seq<Json>, x: Json)
    requires NoDup(list)
    ensures NoDup(Toggle(list, x))
    ensures forall y :: y in Toggle(list, x) <==> (if y == x then x !in list else y in list)
  {
    if x in list {
      RemoveFirstNoDup(list, x);
    }
  }

  /** The toggle semantics of "ships": starting from a list without repetitions and
      toggling distinct values, an id ends up present exactly when it was in the
      old list or in the values, but not both. */
  lemma {:induction false} ToggleAllMembership(list: seq<Json>, vals: seq<Json>)
    requires NoDup(list) && NoDup(vals)
    ensures NoDup(ToggleAll(list, vals))
    ensures forall y :: y in ToggleAll(list, vals) <==> (y in list) != (y in vals)
    decreases |vals|
  {
    if vals != [] {
      var init := vals[..|vals| - 1];
      var last := vals[|vals| - 1];
      assert NoDup(init);
      ToggleAllMembership(list, init);
      ToggleNoDup(ToggleAll(list, init), last);
      assert vals == init + [last];
      assert last !in init;
      forall y ensures y in ToggleAll(list, vals) <==> (y in list) != (y in vals) {
        assert (y in vals) == (y in init || y == last);
      }
    }
  }

  /** `config['piers'].copy()` as a JSON list. */
  function PierNames(piers: seq<string>): (r: seq<Json>)
    ensures |r| == |piers| && forall i :: 0 <= i < |piers| ==> r[i] == JStr(piers[i])
  {
    seq(|piers|, i requires 0 <= i < |piers| => JStr(piers[i]))
  }

  /** The item update `edit_form` makes inside one template (`None`: the toggle loop
      raises TypeError because the value is not a list). */
  function EditItem(byTemplate: map<string, Json>, item: string, value: Json, piers: seq<string>): (r: Option<map<string, Json>>)
    ensures r.Some? ==> r.value.Keys <= byTemplate.Keys + {item}
    ensures r.Some? ==> forall k :: k in byTemplate && k != item ==> k in r.value && r.value[k] == byTemplate[k]
    ensures r.None? <==> (item == ShipsItem && !value.JStr? && !value.JArr?
      && HasTruthy(byTemplate, item) && byTemplate[item].JArr?)
  {
    if item != ShipsItem then Some(byTemplate[item := value])
    else if value.JStr? then
      if value.s == "all" then Some(byTemplate[item := JArr(PierNames(piers))])
      else if value.s == "none" then Some(byTemplate[item := JArr([])])
      else Some(byTemplate)
    else if !(HasTruthy(byTemplate, item) && byTemplate[item].JArr?) then Some(byTemplate[item := value])
    else if value.JArr? then Some(byTemplate[item := JArr(ToggleAll(byTemplate[item].items, value.items))])
    else None
  }

  /** What the "ships" item holds after an edit, case by case. */
  lemma ShipsEditCases(byTemplate: map<string, Json>, value: Json, piers: seq<string>)
    ensures value == JStr("all") ==> EditItem(byTemplate, ShipsItem, value, piers) == Some(byTemplate[ShipsItem := JArr(PierNames(piers))])
    ensures value == JStr("none") ==> EditItem(byTemplate, ShipsItem, value, piers) == Some(byTemplate[ShipsItem := JArr([])])
    ensures value.JStr? && value.s != "all" && value.s != "none" ==> EditItem(byTemplate, ShipsItem, value, piers) == Some(byTemplate)
    ensures value.JArr? && !(HasTruthy(byTemplate, ShipsItem) && byTemplate[ShipsItem].JArr?) ==>
      EditItem(byTemplate, ShipsItem, value, piers) == Some(byTemplate[ShipsItem := value])
    ensures value.JArr? && HasTruthy(byTemplate, ShipsItem) && byTemplate[ShipsItem].JArr? ==>
      EditItem(byTemplate, ShipsItem, value, piers) == Some(byTemplate[ShipsItem := JArr(ToggleAll(byTemplate[ShipsItem].items, value.items))])
  {
  }

  /** The form levels `edit_form` creates for `(sid, template)` before touching the item. */
  function TemplateOf(forms: Forms, sid: string, template: string): map<string, Json>
  {
    if sid in forms && template in forms[sid] then forms[sid][template] else map[]
  }

  /** `grab_form`: the stored value, or None when the session, template or item is missing. */
  function Grab(forms: Forms, sid: string, template: string, item: string): (r: Json)
    ensures (sid in forms && template in forms[sid] && item in forms[sid][template]) ==> r == forms[sid][template][item]
    ensures !(sid in forms && template in forms[sid] && item in forms[sid][template]) ==> r == JNull
  {
    if sid in forms && template in forms[sid] && item in forms[sid][template] then forms[sid][template][item]
    else JNull
  }

  //
  //  Relay service presence
  //

  /** The five entries `services_exist` starts from, all False. */
  const InitialServices: map<string, Json> := map["urbit-web" := JBool(false), "urbit-ames" := JBool(false),
    "minio" := JBool(false), "minio-console" := JBool(false), "minio-bucket" := JBool(false)]

  /** Whether endpoint `ep` is attributed to service `svc` of pier `patp`. */
  predicate EndpointFor(ep: Endpoint, patp: string, svc: string)
  {
    HasPierSegment(ep.url) && PierSegment(ep.url) == patp && ep.svcType == svc
  }

  /** `services_exist` as a fold over the endpoint list (`None`: IndexError on a
      hostname with fewer than three dot-separated segments). */
  function Services(patp: string, subdomains: seq<Endpoint>, isRegistered: bool): Option<map<string, Json>>
    decreases |subdomains|
  {
    if subdomains == [] then Some(InitialServices)
    else
      match Services(patp, subdomains[..|subdomains| - 1], isRegistered)
      case None => None
      case Some(m) =>
        var ep := subdomains[|subdomains| - 1];
        if !HasPierSegment(ep.url) then None
        else if PierSegment(ep.url) == patp && ep.svcType in m then
          Some(m[ep.svcType := if isRegistered then ep.status else JBool(true)])
        else Some(m)
  }

  /** The status of the last endpoint attributed to `(patp, svc)`, or False. */
  function LastStatus(patp: string, svc: string, subdomains: seq<Endpoint>): Json
    decreases |subdomains|
  {
    if subdomains == [] then JBool(false)
    else if EndpointFor(subdomains[|subdomains| - 1], patp, svc) then subdomains[|subdomains| - 1].status
    else LastStatus(patp, svc, subdomains[..|subdomains| - 1])
  }

  /** Whether some endpoint is attributed to `(patp, svc)`. */
  predicate Attributed(patp: string, svc: string, subdomains: seq<Endpoint>)
  {
    exists i :: 0 <= i < |subdomains| && EndpointFor(subdomains[i], patp, svc)
  }

  /** `services_exist` fails exactly when some hostname has fewer than three segments. */
  lemma {:induction false} ServicesFailure(patp: string, subdomains: seq<Endpoint>, isRegistered: bool)
    ensures Services(patp, subdomains, isRegistered).None?
      <==> exists i :: 0 <= i < |subdomains| && !HasPierSegment(subdomains[i].url)
    decreases |subdomains|
  {
    if subdomains != [] {
      var init := subdomains[..|subdomains| - 1];
      ServicesFailure(patp, init, isRegistered);
      if Services(patp, init, isRegistered).None? {
        var i :| 0 <= i < |init| && !HasPierSegment(init[i].url);
        assert subdomains[i] == init[i];
      }
    }
  }

  /** On success the answer has exactly the five service keys. */
  lemma {:induction false} ServicesKeys(patp: string, subdomains: seq<Endpoint>, isRegistered: bool)
    ensures Services(patp, subdomains, isRegistered).Some? ==>
      Services(patp, subdomains, isRegistered).value.Keys == ServiceKeys
    decreases |subdomains|
  {
    if subdomains != [] {
      ServicesKeys(patp, subdomains[..|subdomains| - 1], isRegistered);
    }
  }

  /** On success each service key holds True (unregistered query) or the last
      matching status (registered query) when some endpoint's segment at index -3 is
      exactly `patp` and its type is the key, and False when there is none. */
  lemma {:induction false} ServicesEntry(patp: string, subdomains: seq<Endpoint>, isRegistered: bool, svc: string)
    requires svc in ServiceKeys
    ensures Services(patp, subdomains, isRegistered).Some? ==>
      && svc in Services(patp, subdomains, isRegistered).value
      && Services(patp, subdomains, isRegistered).value[svc]
        == if isRegistered then LastStatus(patp, svc, subdomains) else JBool(Attributed(patp, svc, subdomains))
    decreases |subdomains|
  {
    ServicesKeys(patp, subdomains, isRegistered);
    if subdomains != [] {
      var init := subdomains[..|subdomains| - 1];
      var ep := subdomains[|subdomains| - 1];
      ServicesEntry(patp, init, isRegistered, svc);
      ServicesKeys(patp, init, isRegistered);
      if Services(patp, subdomains, isRegistered).Some? {
        if EndpointFor(ep, patp, svc) {
          assert EndpointFor(subdomains[|subdomains| - 1], patp, svc);
        } else {
          if Attributed(patp, svc, subdomains) {
            var i :| 0 <= i < |subdomains| && EndpointFor(subdomains[i], patp, svc);
            assert init[i] == subdomains[i];
          }
          if Attributed(patp, svc, init) {
            var i :| 0 <= i < |init| && EndpointFor(init[i], patp, svc);
            assert init[i] == subdomains[i];
          }
        }
      }
    }
  }

  /** Exact-segment matching: an endpoint of the moon `doznec-sampel-palnet` is
      never attributed to its planet `sampel-palnet`. */
  lemma MoonIsNotPlanet(svc: string)
    ensures !EndpointFor(Endpoint("doznec-sampel-palnet" + "." + "x" + "." + "io", svc, JStr("ok"), 1), "sampel-palnet", svc)
  {
    PierSegmentOf("doznec-sampel-palnet", "x", "io");
  }

  //
  //  Session tokens
  //

  /** `check_token_hash`: the id is in either partition and the token's digest equals
      that record's hash. The digest function is a parameter. */
  function CheckTokenHash(sessions: Sessions, id: string, token: string, hash: string -> string): (ok: bool)
    ensures ok ==> id in sessions.authorized || id in sessions.unauthorized
    ensures id in sessions.authorized && hash(token) == sessions.authorized[id].hash ==> ok
    ensures id in sessions.unauthorized && hash(token) == sessions.unauthorized[id].hash ==> ok
    ensures ok ==> ((id in sessions.authorized && hash(token) == sessions.authorized[id].hash)
                 || (id in sessions.unauthorized && hash(token) == sessions.unauthorized[id].hash))
  {
    if id in sessions.authorized && hash(token) == sessions.authorized[id].hash then true
    else if id in sessions.unauthorized && hash(token) == sessions.unauthorized[id].hash then true
    else false
  }

  /** The answer depends only on the records stored under `id`. */
  lemma CheckTokenHashIsLocal(s1: Sessions, s2: Sessions, id: string, token: string, hash: string -> string)
    requires (id in s1.authorized <==> id in s2.authorized) && (id in s1.authorized ==> s1.authorized[id] == s2.authorized[id])
    requires (id in s1.unauthorized <==> id in s2.unauthorized) && (id in s1.unauthorized ==> s1.unauthorized[id] == s2.unauthorized[id])
    ensures CheckTokenHash(s1, id, token, hash) == CheckTokenHash(s2, id, token, hash)
  {
  }

  /** What `check_token_content` reads of a token. */
  datatype TokenContent = TokenContent(ip: string, userAgent: string, created: int)

  /** `check_token_content`: the connection's address and User-Agent header must be
      the token's, and the token must be younger than 30 days (`created + 30d <= now`
      rejects). Timestamps are seconds. */
  function CheckTokenContent(remoteIp: string, userAgentHeader: Option<string>, token: TokenContent, now: int): (ok: bool)
    ensures remoteIp != token.ip ==> !ok
    ensures userAgentHeader != Some(token.userAgent) ==> !ok
    ensures token.created + ThirtyDays <= now ==> !ok
    ensures remoteIp == token.ip && userAgentHeader == Some(token.userAgent) && now < token.created + ThirtyDays ==> ok
  {
    if remoteIp != token.ip then false
    else if userAgentHeader != Some(token.userAgent) then false
    else if token.created + ThirtyDays <= now then false
    else true
  }

  /** Expiry is final: once rejected for age, a token stays rejected. */
  lemma TokenExpiryIsFinal(ip: string, ua: string, token: TokenContent, now: int, later: int)
    requires now <= later
    requires ip == token.ip && Some(ua) == Some(token.userAgent)
    requires !CheckTokenContent(ip, Some(ua), token, now)
    ensures !CheckTokenContent(ip, Some(ua), token, later)
  {
  }

  /** A token created at `T` is accepted at `T + 29` days and rejected at `T + 31` days. */
  lemma TokenExpiryWindow(ip: string, ua: string, t: int)
    ensures CheckTokenContent(ip, Some(ua), TokenContent(ip, ua, t), t + 29 * 86400)
    ensures !CheckTokenContent(ip, Some(ua), TokenContent(ip, ua, t), t + 31 * 86400)
  {
  }

  //
  //  The utility object
  //

  class WSUtil {
    /** The class-level `structure` dictionary. */
    const structure: StatusTree
    /** `config.config`, shared with the orchestrator. */
    const config: ConfigStore
    /** The class-level `forms` dictionary. */
    var forms: Forms

    constructor (structure: StatusTree, config: ConfigStore)
      ensures this.structure == structure && this.config == config && forms == map[]
    {
      this.structure := structure;
      this.config := config;
      forms := map[];
    }

    method SystemBroadcast(category: string, mod: string, action: string, info: Json) returns (ok: bool)
      modifies structure
      ensures Outcome(ok, structure.entries) == SystemPublish(old(structure.entries), category, mod, action, info)
    {
      ok := structure.SystemBroadcast(category, mod, action, info);
    }

    method UrbitBroadcast(patp: string, mod: string, action: string, info: Json) returns (ok: bool)
      modifies structure
      ensures ok && structure.entries == UrbitPublish(old(structure.entries), patp, mod, action, info)
    {
      ok := structure.UrbitBroadcast(patp, mod, action, info);
    }

    /** `edit_form(data, template)` with `data['sessionid'] = sid`,
        `data['payload'] = {item, value}`. `ok` is false where Python raises. */
    method EditForm(sid: string, template: string, item: string, value: Json) returns (ok: bool)
      modifies this
      ensures var r := EditItem(TemplateOf(old(forms), sid, template), item, value, config.doc.piers);
        && ok == r.Some?
        && forms == old(forms)[sid := (if sid in old(forms) then old(forms)[sid] else map[])[template :=
             if r.Some? then r.value else TemplateOf(old(forms), sid, template)]]
    {
      var bySid: map<string, map<string, Json>> := if sid in forms then forms[sid] else map[];
      var root := if template in bySid then bySid[template] else map[];
      ghost var before := root;
      ok := true;
      if item == ShipsItem {
        if value.JStr? {
          if value.s == "all" {
            root := root[item := JArr(PierNames(config.doc.piers))];
          } else if value.s == "none" {
            root := root[item := JArr([])];
          }
        } else if !(HasTruthy(root, item) && root[item].JArr?) {
          root := root[item := value];
        } else if value.JArr? {
          var list := root[item].items;
          var i := 0;
          while i < |value.items|
            invariant 0 <= i <= |value.items|
            invariant list == ToggleAll(before[item].items, value.items[..i])
          {
            var patp := value.items[i];
            if patp in list {
              list := RemoveFirst(list, patp);
            } else {
              list := list + [patp];
            }
            assert value.items[..i + 1][..i] == value.items[..i];
            i := i + 1;
          }
          assert value.items[..i] == value.items;
          root := root[item := JArr(list)];
        } else {
          ok := false;
        }
      } else {
        root := root[item := value];
      }
      forms := forms[sid := bySid[template := root]];
    }

    /** `grab_form`. */
    function GrabForm(sid: string, template: string, item: string): (r: Json)
      reads this
      ensures r == Grab(forms, sid, template, item)
    {
      Grab(forms, sid, template, item)
    }

    /** `delete_form` as written: it assigns into `self.form`, an attribute that does
        not exist, so the AttributeError is caught, nothing changes and it answers False. */
    method DeleteForm(sid: string, template: string) returns (ok: bool)
      ensures !ok
    {
      ok := false;
    }

    /** `delete_form` as evidently intended, on `self.forms`: the template of an existing
        session is emptied (True); a missing session is a KeyError (False). */
    method DeleteFormIntended(sid: string, template: string) returns (ok: bool)
      modifies this
      ensures ok == (sid in old(forms))
      ensures ok ==> forms == old(forms)[sid := old(forms)[sid][template := map[]]]
      ensures !ok ==> forms == old(forms)
      ensures ok ==> forall item :: Grab(forms, sid, template, item) == JNull
    {
      if sid in forms {
        forms := forms[sid := forms[sid][template := map[]]];
        ok := true;
      } else {
        ok := false;
      }
    }

    /** `services_exist`: one pass over the relay's endpoints filling the five-entry map. */
    method ServicesExist(patp: string, subdomains: seq<Endpoint>, isRegistered: bool) returns (r: Option<map<string, Json>>)
      ensures r == Services(patp, subdomains, isRegistered)
    {
      var services := InitialServices;
      var i := 0;
      while i < |subdomains|
        invariant 0 <= i <= |subdomains|
        invariant Services(patp, subdomains[..i], isRegistered) == Some(services)
      {
        var ep := subdomains[i];
        assert subdomains[..i + 1][..i] == subdomains[..i];
        if !HasPierSegment(ep.url) {
          ServicesFailure(patp, subdomains, isRegistered);
          return None;
        }
        if PierSegment(ep.url) == patp && ep.svcType in services {
          services := services[ep.svcType := if isRegistered then ep.status else JBool(true)];
        }
        i := i + 1;
      }
      assert subdomains[..i] == subdomains;
      r := Some(services);
    }
  }

  /** Editing an ordinary item and reading it back returns the value written. */
  lemma EditThenGrab(forms: Forms, sid: string, template: string, item: string, value: Json, piers: seq<string>)
    requires item != ShipsItem
    ensures var r := EditItem(TemplateOf(forms, sid, template), item, value, piers);
      && r.Some?
      && Grab(forms[sid := (if sid in forms then forms[sid] else map[])[template := r.value]], sid, template, item) == value
  {
  }
}
