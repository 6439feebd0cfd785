/** api_backup/orchestrator.py: the StarTram (relay) workflows of the websocket
    back end — register, stop, start, restart and change endpoint — and the
    command whitelist for pier modules. Every collaborator (the relay API, the
    wireguard and MinIO containers, the pier containers) is an oracle: its
    answers are parameters and its calls are recorded, in order, as events. */
module Startram {
  import opened Json
  import opened Strings
  import opened Relay
  import opened BroadcastTree
  import opened SystemConfig
  import opened WsUtil

  //
  //  Events
  //

  /** One observable step of a workflow, in the order the source performs it. */
  datatype Event =
    | Said(action: string, info: string)                    // system_broadcast('system', 'startram', action, info)
    | PierSaid(patp: string, action: string, info: string)  // urbit_broadcast(patp, 'startram', action, info)
    | Saved(doc: HostConfig)                                // config_object.save_config()
    | WgStart | WgStop | McStart | McStop
    | MinioStart(patp: string) | MinioStop(patp: string)
    | CreateService(name: string, svcType: string)
    | DeleteService(name: string, svcType: string)
    | AccessToggle(patp: string, mode: string)
    | ResetPubkey
    | GetRegions

  /** The effect of one event on the broadcast status tree. */
  function Apply(t: Tree, e: Event): Tree
  {
    match e
    case Said(action, info) => SystemPublish(t, "system", "startram", action, JStr(info)).tree
    case PierSaid(patp, action, info) => UrbitPublish(t, patp, "startram", action, JStr(info))
    case _ => t
  }

  /** The status tree after a run of events. */
  function Replay(t: Tree, events: seq<Event>): Tree
    decreases |events|
  {
    if events == [] then t else Apply(Replay(t, events[..|events| - 1]), events[|events| - 1])
  }

  lemma {:induction false} ReplayAppend(t: Tree, a: seq<Event>, b: seq<Event>)
    ensures Replay(t, a + b) == Replay(Replay(t, a), b)
    decreases |b|
  {
    if b == [] {
      assert a + b == a;
    } else {
      assert (a + b)[..|a + b| - 1] == a + b[..|b| - 1];
      ReplayAppend(t, a, b[..|b| - 1]);
    }
  }

  /** Events that do not publish leave the status tree alone. */
  predicate Silent(events: seq<Event>)
  {
    forall i :: 0 <= i < |events| ==> !events[i].Said? && !events[i].PierSaid?
  }

  lemma {:induction false} ReplaySilent(t: Tree, events: seq<Event>)
    requires Silent(events)
    ensures Replay(t, events) == t
    decreases |events|
  {
    if events != [] {
      assert Silent(events[..|events| - 1]);
      ReplaySilent(t, events[..|events| - 1]);
    }
  }

  /** The values published under `system.startram.<action>`, in order. */
  function Announcements(events: seq<Event>, action: string): seq<string>
    decreases |events|
  {
    if events == [] then []
    else
      var e := events[|events| - 1];
      Announcements(events[..|events| - 1], action) + (if e.Said? && e.action == action then [e.info] else [])
  }

  lemma {:induction false} AnnouncementsAppend(a: seq<Event>, b: seq<Event>, action: string)
    ensures Announcements(a + b, action) == Announcements(a, action) + Announcements(b, action)
    decreases |b|
  {
    if b == [] {
      assert a + b == a;
    } else {
      assert (a + b)[..|a + b| - 1] == a + b[..|b| - 1];
      AnnouncementsAppend(a, b[..|b| - 1], action);
    }
  }

  /** A single event announces its value exactly when it publishes under `action`. */
  /** Two broadcasts under `action` announce their two values in order. */
  lemma AnnouncementsPair(action: string, first: string, second: string)
    ensures Announcements([Said(action, first), Said(action, second)], action) == [first, second]
  {
    var pair := [Said(action, first), Said(action, second)];
    assert pair[..1] == [Said(action, first)];
    AnnouncementsOne(Said(action, first), action);
  }

  lemma AnnouncementsOne(e: Event, action: string)
    ensures Announcements([e], action) == if e.Said? && e.action == action then [e.info] else []
  {
    assert [e][..0] == [];
  }

  /** Events that publish nothing under `system`. */
  predicate Unannounced(events: seq<Event>)
  {
    forall i :: 0 <= i < |events| ==> !events[i].Said?
  }

  lemma {:induction false} AnnouncementsSilent(events: seq<Event>, action: string)
    requires Unannounced(events)
    ensures Announcements(events, action) == []
    decreases |events|
  {
    if events != [] {
      AnnouncementsSilent(events[..|events| - 1], action);
    }
  }

  /** Unannounced events between two runs drop out of the announcements. */
  lemma AnnouncementsAround(head: seq<Event>, mid: seq<Event>, tail: seq<Event>, action: string)
    requires Unannounced(mid)
    ensures Announcements(head + mid + tail, action) == Announcements(head, action) + Announcements(tail, action)
  {
    AnnouncementsAppend(head + mid, tail, action);
    AnnouncementsAppend(head, mid, action);
    AnnouncementsSilent(mid, action);
  }

  //
  //  Piers as the pier containers know them
  //

  /** An entry of `self.urbit._urbits`, in insertion order. */
  datatype PierNet = PierNet(patp: string, network: string)

  /** `self.urbit._urbits[patp]['network']`; `None` is the KeyError. */
  function NetworkOf(urbits: seq<PierNet>, patp: string): (r: Option<string>)
    ensures r.Some? <==> exists i :: 0 <= i < |urbits| && urbits[i].patp == patp
    decreases |urbits|
  {
    if urbits == [] then None
    else if urbits[0].patp == patp then Some(urbits[0].network)
    else
      var r := NetworkOf(urbits[1..], patp);
      assert forall i :: 1 <= i < |urbits| ==> urbits[i] == urbits[1..][i - 1];
      r
  }

  /** The container calls `startram_stop` makes for each pier: stop its bucket and
      send a tunnel pier back to local access. */
  function StopPierEvents(urbits: seq<PierNet>): seq<Event>
    decreases |urbits|
  {
    if urbits == [] then []
    else
      var p := urbits[|urbits| - 1];
      StopPierEvents(urbits[..|urbits| - 1]) + [MinioStop(p.patp)]
        + (if p.network == "wireguard" then [AccessToggle(p.patp, "local")] else [])
  }

  /** `startram_stop` asks exactly the tunnel piers to go local. */
  lemma {:induction false} StopTogglesTunnelPiers(urbits: seq<PierNet>, patp: string)
    ensures AccessToggle(patp, "local") in StopPierEvents(urbits)
      <==> exists i :: 0 <= i < |urbits| && urbits[i].patp == patp && urbits[i].network == "wireguard"
    ensures Silent(StopPierEvents(urbits))
    decreases |urbits|
  {
    if urbits != [] {
      var init := urbits[..|urbits| - 1];
      StopTogglesTunnelPiers(init, patp);
      assert forall i :: 0 <= i < |init| ==> init[i] == urbits[i];
    }
  }

  /** The bucket starts `startram_start` asks for. */
  function StartPierEvents(urbits: seq<PierNet>): seq<Event>
    decreases |urbits|
  {
    if urbits == [] then [] else StartPierEvents(urbits[..|urbits| - 1]) + [MinioStart(urbits[|urbits| - 1].patp)]
  }

  /** `startram_start` starts one bucket per pier, in the order of `_urbits`. */
  lemma {:induction false} StartPierEventsMeaning(urbits: seq<PierNet>)
    ensures |StartPierEvents(urbits)| == |urbits|
    ensures forall i :: 0 <= i < |urbits| ==> StartPierEvents(urbits)[i] == MinioStart(urbits[i].patp)
    decreases |urbits|
  {
    if urbits != [] {
      var init := urbits[..|urbits| - 1];
      StartPierEventsMeaning(init);
      forall i | 0 <= i < |init| ensures urbits[i] == init[i] {
      }
    }
  }

  //
  //  Failures of `startram_register`
  //

  /** Why the register workflow stopped early. */
  datatype Failure =
    | DeviceFailed | StatusFailed | ConfFailed | WgStartFailed
    | MissingKey(key: string)        // KeyError
    | IndexOutOfRange                // IndexError of services_exist on a short hostname
    | NotContainer(typeName: string) // `patp not in <int or bool>`

  /** The text of the exception, as `f"failure\n{e}"` shows it. */
  function FailureText(f: Failure): string
  {
    match f
    case DeviceFailed => "failed to register device"
    case StatusFailed => "failed to retrieve status"
    case ConfFailed => "failed to update wg0.conf"
    case WgStartFailed => "failed to start wireguard container"
    case MissingKey(key) => "'" + key + "'"
    case IndexOutOfRange => "list index out of range"
    case NotContainer(t) => "argument of type '" + t + "' is not iterable"
  }

  //
  //  Service requests of `startram_register`
  //

  /** Whether the relay lacks one of the pier's urbit services (`not (uw and ua)`). */
  predicate UrbitMissing(res: map<string, Json>)
  {
    !(HasTruthy(res, "urbit-web") && HasTruthy(res, "urbit-ames"))
  }

  /** Whether the relay lacks one of the pier's MinIO services (`not (m and mc and mb)`). */
  predicate MinioMissing(res: map<string, Json>)
  {
    !(HasTruthy(res, "minio") && HasTruthy(res, "minio-console") && HasTruthy(res, "minio-bucket"))
  }

  /** The `create_service` calls for one pier. `createRaises(name, type)` tells whether
      the call raises, which abandons the rest of that pier only. A
      `services_exist` that raises (None) abandons the pier before any request. */
  function PierRequests(patp: string, sub: seq<Endpoint>, createRaises: (string, string) -> bool): seq<Event>
  {
    match Services(patp, sub, false)
    case None => []
    case Some(res) =>
      var minio := if MinioMissing(res) then [CreateService("s3." + patp, "minio")] else [];
      if UrbitMissing(res) then
        [CreateService(patp, "urbit")] + (if createRaises(patp, "urbit") then [] else minio)
      else minio
  }

  /** The service-request loop over the piers. */
  function RequestEvents(piers: seq<string>, sub: seq<Endpoint>, createRaises: (string, string) -> bool): seq<Event>
    decreases |piers|
  {
    if piers == [] then []
    else RequestEvents(piers[..|piers| - 1], sub, createRaises) + PierRequests(piers[|piers| - 1], sub, createRaises)
  }

  /** A pier's urbit service is requested exactly when its endpoint list parses and
      the relay lacks its web or ames endpoint; its MinIO service exactly when the
      relay lacks one of the three bucket endpoints and the urbit request, if made,
      did not raise. */
  lemma PierRequestsMeaning(patp: string, sub: seq<Endpoint>, createRaises: (string, string) -> bool)
    ensures Services(patp, sub, false).None? ==> PierRequests(patp, sub, createRaises) == []
    ensures Services(patp, sub, false).Some? ==>
      (CreateService(patp, "urbit") in PierRequests(patp, sub, createRaises) <==>
         !(Attributed(patp, "urbit-web", sub) && Attributed(patp, "urbit-ames", sub)))
    ensures Services(patp, sub, false).Some? && !createRaises(patp, "urbit") ==>
      (CreateService("s3." + patp, "minio") in PierRequests(patp, sub, createRaises) <==>
         !(Attributed(patp, "minio", sub) && Attributed(patp, "minio-console", sub) && Attributed(patp, "minio-bucket", sub)))
  {
    ServicesEntry(patp, sub, false, "urbit-web");
    ServicesEntry(patp, sub, false, "urbit-ames");
    ServicesEntry(patp, sub, false, "minio");
    ServicesEntry(patp, sub, false, "minio-console");
    ServicesEntry(patp, sub, false, "minio-bucket");
    assert CreateService(patp, "urbit") != CreateService("s3." + patp, "minio") by {
      assert |"s3." + patp| != |patp|;
    }
  }

  /** The request loop over one more pier. */
  lemma RequestEventsPrefix(piers: seq<string>, i: nat, sub: seq<Endpoint>, createRaises: (string, string) -> bool)
    requires i < |piers|
    ensures RequestEvents(piers[..i + 1], sub, createRaises)
      == RequestEvents(piers[..i], sub, createRaises) + PierRequests(piers[i], sub, createRaises)
  {
    assert piers[..i + 1][..i] == piers[..i];
  }

  lemma {:induction false} RequestEventsSilent(piers: seq<string>, sub: seq<Endpoint>, createRaises: (string, string) -> bool)
    ensures Silent(RequestEvents(piers, sub, createRaises))
    decreases |piers|
  {
    if piers != [] {
      RequestEventsSilent(piers[..|piers| - 1], sub, createRaises);
    }
  }

  //
  //  Polling of `startram_register`
  //

  /** Every service whose name contains 'urbit' reports "ok". */
  predicate UrbitReady(res: map<string, Json>)
  {
    forall svc :: svc in res && IsSubstring("urbit", svc) ==> res[svc] == JStr("ok")
  }

  /** Every other service reports "ok". */
  predicate MinioReady(res: map<string, Json>)
  {
    forall svc :: svc in res && !IsSubstring("urbit", svc) ==> res[svc] == JStr("ok")
  }

  /** The publications of a poll round for one pier: each ready half is announced. */
  function ReadyEvents(patp: string, urbitReady: bool, minioReady: bool): seq<Event>
  {
    (if urbitReady then [PierSaid(patp, "urbit", "registered")] else [])
    + (if minioReady then [PierSaid(patp, "minio", "registered")] else [])
  }

  /** The result of one pass over the piers. */
  datatype RoundResult = RoundResult(events: seq<Event>, done: set<string>, crashed: bool)

  /** One poll round over the piers with the relay's fresh endpoint list: each ready
      half is published, a fully ready pier joins `done`; a failed `services_exist`
      raises (IndexError) and ends the round. */
  function Round(piers: seq<string>, sub: seq<Endpoint>, done: set<string>): RoundResult
    decreases |piers|
  {
    if piers == [] then RoundResult([], done, false)
    else
      var r := Round(piers[..|piers| - 1], sub, done);
      if r.crashed then r
      else
        var patp := piers[|piers| - 1];
        match Services(patp, sub, true)
        case None => RoundResult(r.events, r.done, true)
        case Some(res) =>
          var u := UrbitReady(res);
          var m := MinioReady(res);
          RoundResult(r.events + ReadyEvents(patp, u, m),
                      if u && m then r.done + {patp} else r.done,
                      false)
  }

  /** Round over one more pier, as the polling loop takes it. */
  lemma RoundStep(piers: seq<string>, sub: seq<Endpoint>, done: set<string>, i: nat)
    requires i < |piers| && !Round(piers[..i], sub, done).crashed
    ensures var r := Round(piers[..i], sub, done);
      Round(piers[..i + 1], sub, done) ==
        match Services(piers[i], sub, true)
        case None => RoundResult(r.events, r.done, true)
        case Some(res) =>
          RoundResult(r.events + ReadyEvents(piers[i], UrbitReady(res), MinioReady(res)),
                      if UrbitReady(res) && MinioReady(res) then r.done + {piers[i]} else r.done,
                      false)
  {
    assert piers[..i + 1][..i] == piers[..i] && piers[..i + 1][i] == piers[i];
  }

  datatype PollEnd = AllDone | Stalled | Crashed

  datatype PollResult = PollResult(events: seq<Event>, done: set<string>, end: PollEnd)

  /** `while len(done) != len(piers)` over the relay's answers: `None` is a failed
      `retrieve_status(1)` (nothing happens that round), `Some(sub)` a fresh list. The
      source polls for ever; the model stops with `Stalled` when the answers run out. */
  function Poll(piers: seq<string>, polls: seq<Option<seq<Endpoint>>>, done: set<string>): PollResult
    decreases |polls|
  {
    if |done| == |piers| then PollResult([], done, AllDone)
    else if polls == [] then PollResult([], done, Stalled)
    else if polls[0].None? then Poll(piers, polls[1..], done)
    else
      var r := Round(piers, polls[0].value, done);
      if r.crashed then PollResult(r.events, r.done, Crashed)
      else
        var rest := Poll(piers, polls[1..], r.done);
        PollResult(r.events + rest.events, rest.done, rest.end)
  }

  /** Poll from answer `k` on, as the polling loop takes it. */
  lemma PollStep(piers: seq<string>, polls: seq<Option<seq<Endpoint>>>, done: set<string>, k: nat)
    requires k < |polls| && |done| != |piers|
    ensures polls[k].None? ==> Poll(piers, polls[k..], done) == Poll(piers, polls[k + 1..], done)
    ensures polls[k].Some? ==>
      var r := Round(piers, polls[k].value, done);
      Poll(piers, polls[k..], done) ==
        if r.crashed then PollResult(r.events, r.done, Crashed)
        else PollResult(r.events + Poll(piers, polls[k + 1..], r.done).events,
                        Poll(piers, polls[k + 1..], r.done).done, Poll(piers, polls[k + 1..], r.done).end)
  {
    assert polls[k..][0] == polls[k] && polls[k..][1..] == polls[k + 1..];
  }

  /** With the five-service map, a pier's urbit half is ready exactly when its web
      and ames endpoints report "ok", and its MinIO half when the three bucket
      endpoints do. */
  lemma ReadinessOfServices(res: map<string, Json>)
    requires res.Keys == ServiceKeys
    ensures UrbitReady(res) <==> res["urbit-web"] == JStr("ok") && res["urbit-ames"] == JStr("ok")
    ensures MinioReady(res) <==> res["minio"] == JStr("ok") && res["minio-console"] == JStr("ok") && res["minio-bucket"] == JStr("ok")
  {
    forall svc | svc in res ensures IsSubstring("urbit", svc) <==> (svc == "urbit-web" || svc == "urbit-ames") {
      UrbitServiceNames(svc);
    }
  }

  /** Of the five service names, exactly the two urbit ones contain "urbit". */
  lemma UrbitServiceNames(svc: string)
    requires svc in ServiceKeys
    ensures IsSubstring("urbit", svc) <==> (svc == "urbit-web" || svc == "urbit-ames")
  {
    if svc == "urbit-web" {
      PrefixIsSubstring("urbit", svc);
    } else if svc == "urbit-ames" {
      PrefixIsSubstring("urbit", svc);
    } else if svc == "minio" {
      NotSubstring("urbit", svc, 'r');
    } else if svc == "minio-console" {
      NotSubstring("urbit", svc, 'r');
    } else {
      assert svc == "minio-bucket";
      NotSubstring("urbit", svc, 'r');
    }
  }

  /** The polling rounds never shrink `done` and only add piers of the list. */
  lemma {:induction false} RoundDone(piers: seq<string>, sub: seq<Endpoint>, done: set<string>)
    ensures done <= Round(piers, sub, done).done
    ensures forall p :: p in Round(piers, sub, done).done && p !in done ==> p in piers
    decreases |piers|
  {
    if piers != [] {
      RoundDone(piers[..|piers| - 1], sub, done);
    }
  }

  /** A pier joins `done` exactly when, in a round that reaches it, both halves are
      ready; and the rounds publish only per-pier readiness. */
  lemma {:induction false} RoundJoins(piers: seq<string>, sub: seq<Endpoint>, done: set<string>, patp: string)
    requires patp !in done && patp in piers
    requires !Round(piers, sub, done).crashed
    ensures patp in Round(piers, sub, done).done <==>
      Services(patp, sub, true).Some? && UrbitReady(Services(patp, sub, true).value) && MinioReady(Services(patp, sub, true).value)
    decreases |piers|
  {
    var init := piers[..|piers| - 1];
    var last := piers[|piers| - 1];
    var r := Round(init, sub, done);
    assert !r.crashed;
    if patp in init {
      RoundJoins(init, sub, done, patp);
    } else {
      assert patp == last by {
        assert piers == init + [last];
      }
      RoundDone(init, sub, done);
      assert patp !in r.done;
    }
    if patp in init && patp != last {
    }
  }

  lemma {:induction false} PollEndsWhenAllDone(piers: seq<string>, polls: seq<Option<seq<Endpoint>>>, done: set<string>)
    ensures Poll(piers, polls, done).end == AllDone ==> |Poll(piers, polls, done).done| == |piers|
    ensures done <= Poll(piers, polls, done).done
    decreases |polls|
  {
    if |done| != |piers| && polls != [] {
      if polls[0].None? {
        PollEndsWhenAllDone(piers, polls[1..], done);
      } else {
        var r := Round(piers, polls[0].value, done);
        RoundDone(piers, polls[0].value, done);
        if !r.crashed {
          PollEndsWhenAllDone(piers, polls[1..], r.done);
        }
      }
    }
  }

  lemma {:induction false} RoundPublishesNoSystem(piers: seq<string>, sub: seq<Endpoint>, done: set<string>)
    ensures Unannounced(Round(piers, sub, done).events)
    decreases |piers|
  {
    if piers != [] {
      RoundPublishesNoSystem(piers[..|piers| - 1], sub, done);
    }
  }

  lemma {:induction false} PollPublishesNoSystem(piers: seq<string>, polls: seq<Option<seq<Endpoint>>>, done: set<string>)
    ensures Unannounced(Poll(piers, polls, done).events)
    decreases |polls|
  {
    if |done| != |piers| && polls != [] {
      if polls[0].None? {
        PollPublishesNoSystem(piers, polls[1..], done);
      } else {
        var r := Round(piers, polls[0].value, done);
        RoundPublishesNoSystem(piers, polls[0].value, done);
        if !r.crashed {
          PollPublishesNoSystem(piers, polls[1..], r.done);
        }
      }
    }
  }

  //
  //  Access toggle of `startram_register`
  //

  /** `patp not in ignored` after `None` became `[]`; `None` here is the TypeError of
      `in` on a number or a boolean. */
  function InIgnored(ignored: Json, patp: string): (r: Option<bool>)
    ensures r.None? <==> ignored.JNum? || ignored.JBool?
    ensures ignored.JNull? ==> r == Some(false)
    ensures ignored.JArr? ==> r == Some(JStr(patp) in ignored.items)
  {
    match ignored
    case JNull => Some(false)
    case JArr(items) => Some(JStr(patp) in items)
    case JStr(s) => Some(IsSubstring(patp, s))
    case JObj(fields) => Some(patp in fields)
    case _ => None
  }

  function TypeName(j: Json): string
  {
    if j.JNum? then "int" else "bool"
  }

  datatype ToggleResult = ToggleResult(events: seq<Event>, crash: Option<Failure>)

  /** The final loop of `startram_register`: a pier goes remote when it is already on
      the tunnel or not in the form's ignore list, and local otherwise. */
  function ToggleRun(piers: seq<string>, urbits: seq<PierNet>, ignored: Json): ToggleResult
    decreases |piers|
  {
    if piers == [] then ToggleResult([], None)
    else
      var r := ToggleRun(piers[..|piers| - 1], urbits, ignored);
      if r.crash.Some? then r
      else
        var patp := piers[|piers| - 1];
        match NetworkOf(urbits, patp)
        case None => ToggleResult(r.events, Some(MissingKey(patp)))
        case Some(net) =>
          if net == "wireguard" then ToggleResult(r.events + [AccessToggle(patp, "remote")], None)
          else
            match InIgnored(ignored, patp)
            case None => ToggleResult(r.events, Some(NotContainer(TypeName(ignored))))
            case Some(listed) => ToggleResult(r.events + [AccessToggle(patp, if listed then "local" else "remote")], None)
  }

  /** The mode the final loop of `startram_register` gives a pier known on `net`. */
  function ToggleMode(net: string, ignored: Json, patp: string): string
  {
    if net == "wireguard" || InIgnored(ignored, patp) == Some(false) then "remote" else "local"
  }

  /** One step of `ToggleRun`: a run without errors extends the run on the
      preceding piers by the last pier's toggle. */
  lemma ToggleRunStep(piers: seq<string>, urbits: seq<PierNet>, ignored: Json)
    requires piers != [] && ToggleRun(piers, urbits, ignored).crash.None?
    ensures var init := piers[..|piers| - 1];
      var last := piers[|piers| - 1];
      && ToggleRun(init, urbits, ignored).crash.None?
      && NetworkOf(urbits, last).Some?
      && ToggleRun(piers, urbits, ignored).events
         == ToggleRun(init, urbits, ignored).events + [AccessToggle(last, ToggleMode(NetworkOf(urbits, last).value, ignored, last))]
  {
  }

  /** On a run without errors each pier is toggled exactly once, in order: remote
      when it is on the tunnel or not ignored, local otherwise. */
  lemma {:induction false} ToggleRunMeaning(piers: seq<string>, urbits: seq<PierNet>, ignored: Json)
    requires ToggleRun(piers, urbits, ignored).crash.None?
    ensures |ToggleRun(piers, urbits, ignored).events| == |piers|
    ensures forall i :: 0 <= i < |piers| ==>
      && NetworkOf(urbits, piers[i]).Some?
      && ToggleRun(piers, urbits, ignored).events[i] ==
           AccessToggle(piers[i], ToggleMode(NetworkOf(urbits, piers[i]).value, ignored, piers[i]))
    decreases |piers|
  {
    if piers != [] {
      var init := piers[..|piers| - 1];
      var last := piers[|piers| - 1];
      ToggleRunStep(piers, urbits, ignored);
      ToggleRunMeaning(init, urbits, ignored);
      var all := ToggleRun(piers, urbits, ignored).events;
      var pre := ToggleRun(init, urbits, ignored).events;
      forall i | 0 <= i < |piers|
        ensures NetworkOf(urbits, piers[i]).Some?
        ensures all[i] == AccessToggle(piers[i], ToggleMode(NetworkOf(urbits, piers[i]).value, ignored, piers[i]))
      {
        if i < |init| {
          assert piers[i] == init[i] && all[i] == pre[i];
        } else {
          assert piers[i] == last;
        }
      }
    }
  }

  lemma {:induction false} ToggleRunSilent(piers: seq<string>, urbits: seq<PierNet>, ignored: Json)
    ensures Silent(ToggleRun(piers, urbits, ignored).events)
    decreases |piers|
  {
    if piers != [] {
      ToggleRunSilent(piers[..|piers| - 1], urbits, ignored);
    }
  }

  /** Once a round raised on a prefix of the piers, the rest changes nothing. */
  lemma {:induction false} RoundFailure(piers: seq<string>, sub: seq<Endpoint>, done: set<string>, n: nat)
    requires n <= |piers| && Round(piers[..n], sub, done).crashed
    ensures Round(piers, sub, done) == Round(piers[..n], sub, done)
    decreases |piers| - n
  {
    if n < |piers| {
      assert piers[..n + 1][..n] == piers[..n];
      RoundFailure(piers, sub, done, n + 1);
    } else {
      assert piers[..n] == piers;
    }
  }

  /** Once the toggle loop raised on a prefix of the piers, the rest changes nothing. */
  lemma {:induction false} ToggleRunFailure(piers: seq<string>, urbits: seq<PierNet>, ignored: Json, n: nat)
    requires n <= |piers| && ToggleRun(piers[..n], urbits, ignored).crash.Some?
    ensures ToggleRun(piers, urbits, ignored) == ToggleRun(piers[..n], urbits, ignored)
    decreases |piers| - n
  {
    if n < |piers| {
      assert piers[..n + 1][..n] == piers[..n];
      ToggleRunFailure(piers, urbits, ignored, n + 1);
    } else {
      assert piers[..n] == piers;
    }
  }

  /** The readiness loop of a poll round, `for svc in res`, in any key order. */
  method ServiceReadiness(res: map<string, Json>) returns (urbitReady: bool, minioReady: bool)
    ensures urbitReady == UrbitReady(res) && minioReady == MinioReady(res)
  {
    urbitReady, minioReady := true, true;
    var left := res.Keys;
    while left != {}
      invariant left <= res.Keys
      invariant urbitReady == forall svc :: svc in res && svc !in left && IsSubstring("urbit", svc) ==> res[svc] == JStr("ok")
      invariant minioReady == forall svc :: svc in res && svc !in left && !IsSubstring("urbit", svc) ==> res[svc] == JStr("ok")
      decreases |left|
    {
      var svc :| svc in left;
      if res[svc] != JStr("ok") {
        if IsSubstring("urbit", svc) {
          urbitReady := false;
        } else {
          minioReady := false;
        }
      }
      left := left - {svc};
    }
  }

  //
  //  `startram_register` as a whole
  //

  /** The collaborators' answers for one registration. */
  datatype RegisterOracle = RegisterOracle(
    deviceOk: bool,                          // startram_api.register_device(sid)
    statusOk: bool,                          // startram_api.retrieve_status(10)
    conf: Option<string>,                    // anchor_data['conf']
    confOk: bool,                            // wireguard.update_wg_config(conf)
    startOk: bool,                           // wireguard.start()
    subdomains: Option<seq<Endpoint>>,       // anchor_data['subdomains']
    createRaises: (string, string) -> bool,  // whether create_service(name, type) raises
    polls: seq<Option<seq<Endpoint>>>)       // the answers of retrieve_status(1), in order

  /** How the workflow ended: with its final broadcast of `registered`, or still polling. */
  datatype RegisterOutcome = Finished(registered: string) | StillPolling

  datatype RegisterResult = RegisterResult(events: seq<Event>, doc: HostConfig, outcome: RegisterOutcome)

  /** Concatenation of traces regroups freely. */
  lemma AppendAssoc(a: seq<Event>, b: seq<Event>, c: seq<Event>)
    ensures a + b + c == a + (b + c)
  {
  }

  /** The broadcasts of the exception handler and the final `registered` value. */
  function Report(f: Failure, registered: string): seq<Event>
  {
    [Said("register", "failure\n" + FailureText(f)), Said("register", registered)]
  }

  /** The exception handler and the final broadcast. */
  function Fail(events: seq<Event>, doc: HostConfig, f: Failure, registered: string): RegisterResult
  {
    RegisterResult(events + Report(f, registered), doc, Finished(registered))
  }

  /** The calls of a phase of `startram_register`, the configuration it leaves and the
      exception it raised, if any. */
  datatype Phase = Phase(events: seq<Event>, doc: HostConfig, failure: Option<Failure>)

  /** From `register_device` to the "success" broadcast: the tunnel is configured,
      recorded and started, and the MinIO client is started. */
  function TunnelRun(doc: HostConfig, o: RegisterOracle): Phase
  {
    var a := [Said("register", "registering")];
    if !o.deviceOk then Phase(a, doc, Some(DeviceFailed))
    else
      var a := a + [Said("register", "updating")];
      if !o.statusOk then Phase(a, doc, Some(StatusFailed))
      else if o.conf.None? then Phase(a, doc, Some(MissingKey("conf")))
      else if !o.confOk then Phase(a, doc, Some(ConfFailed))
      else
        var d1 := doc.(wgRegistered := true);
        var a := a + [Saved(d1), WgStart];
        if !o.startOk then Phase(a, d1, Some(WgStartFailed))
        else
          var d2 := d1.(wgOn := true);
          Phase(a + [Said("register", "start-wg"), Saved(d2), Said("register", "start-mc"), McStart, Said("register", "success")], d2, None)
  }

  /** How the service phase of `startram_register` ended. */
  datatype ServicesOutcome = ServicesOutcome(events: seq<Event>, failure: Option<Failure>, stalled: bool)

  /** After the tunnel is up: request the missing services, poll until every pier is
      ready, then set each pier's access. */
  function ServicesRun(doc: HostConfig, urbits: seq<PierNet>, ignored: Json, o: RegisterOracle): ServicesOutcome
  {
    if o.subdomains.None? then ServicesOutcome([], Some(MissingKey("subdomains")), false)
    else
      var r := PollAndToggle(doc.piers, urbits, ignored, o.polls);
      ServicesOutcome(RequestEvents(doc.piers, o.subdomains.value, o.createRaises) + r.events, r.failure, r.stalled)
  }

  /** The polling loop and, once every pier is ready, the access loop. */
  function PollAndToggle(piers: seq<string>, urbits: seq<PierNet>, ignored: Json, polls: seq<Option<seq<Endpoint>>>): ServicesOutcome
  {
    var p := Poll(piers, polls, {});
    if p.end == Stalled then ServicesOutcome(p.events, None, true)
    else if p.end == Crashed then ServicesOutcome(p.events, Some(IndexOutOfRange), false)
    else
      var t := ToggleRun(piers, urbits, ignored);
      ServicesOutcome(p.events + t.events, t.crash, false)
  }

  /** The whole of `startram_register`. `ignored` is the form's `startram.ships` value;
      `registered` turns "yes" once the tunnel phase is through. */
  function RegisterRun(doc: HostConfig, urbits: seq<PierNet>, ignored: Json, o: RegisterOracle): RegisterResult
  {
    var t := TunnelRun(doc, o);
    if t.failure.Some? then Fail(t.events, t.doc, t.failure.value, "no")
    else
      var f := RegisterFinish(t.doc, urbits, ignored, o);
      RegisterResult(t.events + f.events, t.doc, f.outcome)
  }

  datatype Ending = Ending(events: seq<Event>, outcome: RegisterOutcome)

  /** The service phase and the end of `startram_register` once the tunnel is up. */
  function RegisterFinish(doc: HostConfig, urbits: seq<PierNet>, ignored: Json, o: RegisterOracle): Ending
  {
    var s := ServicesRun(doc, urbits, ignored, o);
    if s.stalled then Ending(s.events, StillPolling)
    else if s.failure.Some? then Ending(s.events + Report(s.failure.value, "yes"), Finished("yes"))
    else Ending(s.events + [Said("register", "yes")], Finished("yes"))
  }

  /** The events of the all-success path up to the service requests. */
  function SuccessHead(doc: HostConfig): seq<Event>
  {
    [Said("register", "registering"), Said("register", "updating"), Saved(doc.(wgRegistered := true)), WgStart,
     Said("register", "start-wg"), Saved(doc.(wgRegistered := true).(wgOn := true)), Said("register", "start-mc"),
     McStart, Said("register", "success")]
  }

  lemma SuccessHeadAnnouncements(doc: HostConfig)
    ensures Announcements(SuccessHead(doc), "register") == ["registering", "updating", "start-wg", "start-mc", "success"]
  {
    var h := SuccessHead(doc);
    assert Announcements(h[..1], "register") == ["registering"] by { assert h[..1][..0] == []; }
    assert Announcements(h[..2], "register") == ["registering", "updating"] by { assert h[..2][..1] == h[..1]; }
    assert Announcements(h[..3], "register") == ["registering", "updating"] by { assert h[..3][..2] == h[..2]; }
    assert Announcements(h[..4], "register") == ["registering", "updating"] by { assert h[..4][..3] == h[..3]; }
    assert Announcements(h[..5], "register") == ["registering", "updating", "start-wg"] by { assert h[..5][..4] == h[..4]; }
    assert Announcements(h[..6], "register") == ["registering", "updating", "start-wg"] by { assert h[..6][..5] == h[..5]; }
    assert Announcements(h[..7], "register") == ["registering", "updating", "start-wg", "start-mc"] by { assert h[..7][..6] == h[..6]; }
    assert Announcements(h[..8], "register") == ["registering", "updating", "start-wg", "start-mc"] by { assert h[..8][..7] == h[..7]; }
    assert Announcements(h[..9], "register") == ["registering", "updating", "start-wg", "start-mc", "success"] by { assert h[..9][..8] == h[..8]; }
    assert h[..9] == h;
  }

  /** The shape of the all-success path. */
  lemma RegisterSuccessShape(doc: HostConfig, urbits: seq<PierNet>, ignored: Json, o: RegisterOracle)
    requires o.deviceOk && o.statusOk && o.conf.Some? && o.confOk && o.startOk && o.subdomains.Some?
    requires Poll(doc.piers, o.polls, {}).end == AllDone
    requires ToggleRun(doc.piers, urbits, ignored).crash.None?
    ensures RegisterRun(doc, urbits, ignored, o).events
      == SuccessHead(doc) + RequestEvents(doc.piers, o.subdomains.value, o.createRaises)
         + Poll(doc.piers, o.polls, {}).events + ToggleRun(doc.piers, urbits, ignored).events + [Said("register", "yes")]
    ensures RegisterRun(doc, urbits, ignored, o).outcome == Finished("yes")
  {
    var d := doc.(wgRegistered := true).(wgOn := true);
    TunnelSuccess(doc, o);
    FinishSuccess(d, urbits, ignored, o);
    var h := SuccessHead(doc);
    var req := RequestEvents(doc.piers, o.subdomains.value, o.createRaises);
    var p := Poll(doc.piers, o.polls, {}).events;
    var t := ToggleRun(doc.piers, urbits, ignored).events;
    assert RegisterRun(doc, urbits, ignored, o).events == h + (req + p + t + [Said("register", "yes")]);
    AppendAssoc(h, req + p + t, [Said("register", "yes")]);
    AppendAssoc(h, req + p, t);
    AppendAssoc(h, req, p);
  }

  lemma TunnelSuccess(doc: HostConfig, o: RegisterOracle)
    requires o.deviceOk && o.statusOk && o.conf.Some? && o.confOk && o.startOk
    ensures TunnelRun(doc, o) == Phase(SuccessHead(doc), doc.(wgRegistered := true).(wgOn := true), None)
  {
  }

  lemma FinishSuccess(doc: HostConfig, urbits: seq<PierNet>, ignored: Json, o: RegisterOracle)
    requires o.subdomains.Some?
    requires Poll(doc.piers, o.polls, {}).end == AllDone
    requires ToggleRun(doc.piers, urbits, ignored).crash.None?
    ensures RegisterFinish(doc, urbits, ignored, o) == Ending(
      RequestEvents(doc.piers, o.subdomains.value, o.createRaises) + Poll(doc.piers, o.polls, {}).events
        + ToggleRun(doc.piers, urbits, ignored).events + [Said("register", "yes")],
      Finished("yes"))
  {
    var p := Poll(doc.piers, o.polls, {});
    var t := ToggleRun(doc.piers, urbits, ignored);
    var req := RequestEvents(doc.piers, o.subdomains.value, o.createRaises);
    assert PollAndToggle(doc.piers, urbits, ignored, o.polls) == ServicesOutcome(p.events + t.events, None, false);
    assert ServicesRun(doc, urbits, ignored, o) == ServicesOutcome(req + (p.events + t.events), None, false);
    assert req + (p.events + t.events) + [Said("register", "yes")] == req + p.events + t.events + [Said("register", "yes")];
  }

  /** The all-success path announces registering, updating, start-wg, start-mc,
      success and then "yes", in that order. */
  lemma RegisterSuccessAnnouncements(doc: HostConfig, urbits: seq<PierNet>, ignored: Json, o: RegisterOracle)
    requires o.deviceOk && o.statusOk && o.conf.Some? && o.confOk && o.startOk && o.subdomains.Some?
    requires Poll(doc.piers, o.polls, {}).end == AllDone
    requires ToggleRun(doc.piers, urbits, ignored).crash.None?
    ensures Announcements(RegisterRun(doc, urbits, ignored, o).events, "register")
      == ["registering", "updating", "start-wg", "start-mc", "success", "yes"]
    ensures RegisterRun(doc, urbits, ignored, o).outcome == Finished("yes")
  {
    RegisterSuccessShape(doc, urbits, ignored, o);
    RequestEventsSilent(doc.piers, o.subdomains.value, o.createRaises);
    PollPublishesNoSystem(doc.piers, o.polls, {});
    ToggleRunSilent(doc.piers, urbits, ignored);
    SuccessAnnouncements(doc, RequestEvents(doc.piers, o.subdomains.value, o.createRaises),
      Poll(doc.piers, o.polls, {}).events, ToggleRun(doc.piers, urbits, ignored).events);
  }

  lemma SuccessAnnouncements(doc: HostConfig, req: seq<Event>, poll: seq<Event>, tog: seq<Event>)
    requires Silent(req) && Unannounced(poll) && Silent(tog)
    ensures Announcements(SuccessHead(doc) + req + poll + tog + [Said("register", "yes")], "register")
      == ["registering", "updating", "start-wg", "start-mc", "success", "yes"]
  {
    var mid := req + poll + tog;
    assert Unannounced(mid) by {
      forall i | 0 <= i < |mid| ensures !mid[i].Said? {
        if i < |req| {
          assert mid[i] == req[i];
        } else if i < |req| + |poll| {
          assert mid[i] == poll[i - |req|];
        } else {
          assert mid[i] == tog[i - |req| - |poll|];
        }
      }
    }
    assert SuccessHead(doc) + req + poll + tog + [Said("register", "yes")] == SuccessHead(doc) + mid + [Said("register", "yes")];
    AnnouncementsAround(SuccessHead(doc), mid, [Said("register", "yes")], "register");
    SuccessHeadAnnouncements(doc);
    assert Announcements([Said("register", "yes")], "register") == ["yes"] by {
      assert [Said("register", "yes")][..0] == [];
    }
  }

  /** A failure before the tunnel is up announces the matching reason and then "no";
      the tunnel is never started when registration, status or the wg0.conf update fails. */
  lemma RegisterEarlyFailure(doc: HostConfig, urbits: seq<PierNet>, ignored: Json, o: RegisterOracle)
    requires !(o.deviceOk && o.statusOk && o.conf.Some? && o.confOk && o.startOk)
    ensures var r := RegisterRun(doc, urbits, ignored, o);
      var f := if !o.deviceOk then DeviceFailed else if !o.statusOk then StatusFailed
               else if o.conf.None? then MissingKey("conf") else if !o.confOk then ConfFailed else WgStartFailed;
      && r.outcome == Finished("no")
      && r.events[|r.events| - 2..] == [Said("register", "failure\n" + FailureText(f)), Said("register", "no")]
      && (f != WgStartFailed ==> WgStart !in r.events && r.doc == doc)
      && (f == WgStartFailed ==> r.doc == doc.(wgRegistered := true))
  {
  }

  /** Configuration writes: `wgRegistered` is saved right after the wg0.conf update and
      before the tunnel starts; `wgOn` is saved only after the tunnel started. */
  lemma RegisterConfigOrder(doc: HostConfig, urbits: seq<PierNet>, ignored: Json, o: RegisterOracle)
    requires o.deviceOk && o.statusOk && o.conf.Some? && o.confOk
    ensures var r := RegisterRun(doc, urbits, ignored, o);
      && r.events[2] == Saved(doc.(wgRegistered := true))
      && r.events[3] == WgStart
      && (o.startOk <==> (|r.events| > 5 && r.events[5] == Saved(doc.(wgRegistered := true).(wgOn := true))))
      && (o.startOk ==> r.doc.wgRegistered && r.doc.wgOn)
  {
  }

  //
  //  `startram_stop`, `startram_start` and `startram_restart`
  //

  /** The calls of `startram_stop`: the MinIO client, each pier's bucket and tunnel
      access, then the tunnel; `wgOn` is cleared and saved only when it stopped. */
  function StopEvents(urbits: seq<PierNet>, doc: HostConfig, stopOk: bool): seq<Event>
  {
    [McStop] + StopPierEvents(urbits) + [WgStop] + (if stopOk then [Saved(doc.(wgOn := false))] else [])
  }

  /** The calls of `startram_start`: the tunnel, then, only when it started, the
      saved `wgOn`, the MinIO client and each pier's bucket. */
  function StartEvents(urbits: seq<PierNet>, doc: HostConfig, startOk: bool): seq<Event>
  {
    [WgStart] + (if startOk then [Saved(doc.(wgOn := true)), McStart] + StartPierEvents(urbits) else [])
  }

  lemma StopStartSilent(urbits: seq<PierNet>, doc: HostConfig, stopOk: bool, startOk: bool)
    ensures Silent(StopEvents(urbits, doc, stopOk)) && Silent(StartEvents(urbits, doc, startOk))
  {
    StopTogglesTunnelPiers(urbits, "");
    StartPierEventsMeaning(urbits);
    var stop := StopEvents(urbits, doc, stopOk);
    var start := StartEvents(urbits, doc, startOk);
    forall i | 0 <= i < |stop| ensures !stop[i].Said? && !stop[i].PierSaid? {
      if 1 <= i < 1 + |StopPierEvents(urbits)| {
        assert stop[i] == StopPierEvents(urbits)[i - 1];
      }
    }
    forall i | 0 <= i < |start| ensures !start[i].Said? && !start[i].PierSaid? {
      if startOk && 3 <= i {
        assert start[i] == StartPierEvents(urbits)[i - 3];
      }
    }
  }

  /** The piers of `config['piers']` on the tunnel, which `startram_restart` sends
      back to remote access; `None` is the KeyError of a listed pier that the pier
      containers do not know. */
  function RemoteSet(piers: seq<string>, urbits: seq<PierNet>): (r: Option<set<string>>)
    ensures r.None? <==> exists i :: 0 <= i < |piers| && NetworkOf(urbits, piers[i]).None?
    ensures r.Some? ==> forall p :: p in r.value <==> p in piers && NetworkOf(urbits, p) == Some("wireguard")
    decreases |piers|
  {
    if piers == [] then Some({})
    else
      var init := piers[..|piers| - 1];
      var last := piers[|piers| - 1];
      assert piers == init + [last];
      match RemoteSet(init, urbits)
      case None => None
      case Some(set0) =>
        match NetworkOf(urbits, last)
        case None => None
        case Some(net) => Some(if net == "wireguard" then set0 + {last} else set0)
  }

  /** `toggles` sends each pier of `remote` to remote access once, in some order
      (the iteration order of a Python set). */
  predicate TogglesRemote(toggles: seq<Event>, remote: set<string>)
  {
    && |toggles| == |remote|
    && (forall i :: 0 <= i < |toggles| ==> toggles[i].AccessToggle? && toggles[i].mode == "remote" && toggles[i].patp in remote)
    && (forall p :: p in remote ==> AccessToggle(p, "remote") in toggles)
  }

  /** The events of `startram_restart` once the remote set is known; `toggles` are the
      remote-access calls made after a successful stop and start. */
  function RestartEvents(urbits: seq<PierNet>, doc: HostConfig, stopOk: bool, startOk: bool, toggles: seq<Event>): seq<Event>
  {
    [Said("restart", "initializing"), Said("restart", "stopping")]
      + RestartMiddle(urbits, doc, stopOk, startOk, toggles)
      + [Said("restart", "success"), Said("restart", "")]
  }

  /** The stop, the start after a successful stop, and the remote toggles. */
  function RestartMiddle(urbits: seq<PierNet>, doc: HostConfig, stopOk: bool, startOk: bool, toggles: seq<Event>): seq<Event>
  {
    StopEvents(urbits, doc, stopOk)
      + (if stopOk then [Said("restart", "starting")] + StartEvents(urbits, doc.(wgOn := false), startOk) else [])
      + toggles
  }

  /** `startram_restart` announces initializing, stopping, starting (only when the stop
      succeeded), success and the final empty value, whatever the tunnel does. */
  lemma RestartAnnouncements(urbits: seq<PierNet>, doc: HostConfig, stopOk: bool, startOk: bool, toggles: seq<Event>)
    requires forall i :: 0 <= i < |toggles| ==> toggles[i].AccessToggle?
    ensures Announcements(RestartEvents(urbits, doc, stopOk, startOk, toggles), "restart")
      == ["initializing", "stopping"] + (if stopOk then ["starting"] else []) + ["success", ""]
  {
    var head: seq<Event> := [Said("restart", "initializing"), Said("restart", "stopping")];
    var middle := RestartMiddle(urbits, doc, stopOk, startOk, toggles);
    var tail: seq<Event> := [Said("restart", "success"), Said("restart", "")];
    RestartMiddleAnnouncements(urbits, doc, stopOk, startOk, toggles);
    AnnouncementsAppend(head + middle, tail, "restart");
    AnnouncementsAppend(head, middle, "restart");
    AnnouncementsPair("restart", "initializing", "stopping");
    AnnouncementsPair("restart", "success", "");
  }

  /** Between "stopping" and "success" only "starting" is announced, after a good stop. */
  lemma RestartMiddleAnnouncements(urbits: seq<PierNet>, doc: HostConfig, stopOk: bool, startOk: bool, toggles: seq<Event>)
    requires forall i :: 0 <= i < |toggles| ==> toggles[i].AccessToggle?
    ensures Announcements(RestartMiddle(urbits, doc, stopOk, startOk, toggles), "restart")
      == if stopOk then ["starting"] else []
  {
    var stop := StopEvents(urbits, doc, stopOk);
    var start := StartEvents(urbits, doc.(wgOn := false), startOk);
    var mid: seq<Event> := if stopOk then [Said("restart", "starting")] + start else [];
    StopStartSilent(urbits, doc, stopOk, startOk);
    StopStartSilent(urbits, doc.(wgOn := false), stopOk, startOk);
    AnnouncementsAppend(stop + mid, toggles, "restart");
    AnnouncementsAppend(stop, mid, "restart");
    AnnouncementsSilent(stop, "restart");
    AnnouncementsSilent(toggles, "restart");
    if stopOk {
      AnnouncementsAppend([Said("restart", "starting")], start, "restart");
      AnnouncementsSilent(start, "restart");
      AnnouncementsOne(Said("restart", "starting"), "restart");
    }
  }


  //
  //  `startram_change_endpoint`
  //

  /** `True in list(res.values())`: the relay lists at least one of the pier's services. */
  predicate AnyListed(res: map<string, Json>)
  {
    exists svc :: svc in res && res[svc] == JBool(true)
  }

  /** A pier counts as listed exactly when one of its five services is attributed to it. */
  lemma AnyListedMeaning(patp: string, sub: seq<Endpoint>)
    requires Services(patp, sub, false).Some?
    ensures AnyListed(Services(patp, sub, false).value) <==>
      exists svc :: svc in ServiceKeys && Attributed(patp, svc, sub)
  {
    var res := Services(patp, sub, false).value;
    ServicesKeys(patp, sub, false);
    forall svc | svc in ServiceKeys ensures res[svc] == JBool(Attributed(patp, svc, sub)) {
      ServicesEntry(patp, sub, false, svc);
    }
  }

  /** The calls of a loop that may raise, and whether it did. */
  datatype LoopResult = LoopResult(events: seq<Event>, raised: bool)

  /** The `delete_service` calls of `startram_change_endpoint` over the piers; a
      `services_exist` that raises ends the loop and the workflow. */
  function DeleteEvents(piers: seq<string>, sub: seq<Endpoint>): LoopResult
    decreases |piers|
  {
    if piers == [] then LoopResult([], false)
    else
      var patp := piers[|piers| - 1];
      var r := DeleteEvents(piers[..|piers| - 1], sub);
      if r.raised then r
      else
        match Services(patp, sub, false)
        case None => LoopResult(r.events, true)
        case Some(res) =>
          LoopResult(r.events + Deletions(patp, AnyListed(res)), false)
  }

  /** The `delete_service` calls for one pier: both of its services when it is listed. */
  function Deletions(patp: string, listed: bool): seq<Event>
  {
    if listed then [DeleteService(patp, "urbit"), DeleteService("s3." + patp, "minio")] else []
  }

  /** The deletion loop over one more pier. */
  lemma DeleteStep(piers: seq<string>, sub: seq<Endpoint>, i: nat)
    requires i < |piers| && !DeleteEvents(piers[..i], sub).raised
    ensures DeleteEvents(piers[..i + 1], sub) ==
      match Services(piers[i], sub, false)
      case None => LoopResult(DeleteEvents(piers[..i], sub).events, true)
      case Some(res) => LoopResult(DeleteEvents(piers[..i], sub).events + Deletions(piers[i], AnyListed(res)), false)
  {
    assert piers[..i + 1][..i] == piers[..i] && piers[..i + 1][i] == piers[i];
  }

  lemma {:induction false} DeleteEventsSilent(piers: seq<string>, sub: seq<Endpoint>)
    ensures Silent(DeleteEvents(piers, sub).events)
    decreases |piers|
  {
    if piers != [] {
      DeleteEventsSilent(piers[..|piers| - 1], sub);
    }
  }

  /** Once the loop raised on a prefix, the rest of the piers changes nothing. */
  lemma {:induction false} DeleteEventsFailure(piers: seq<string>, sub: seq<Endpoint>, n: nat)
    requires n <= |piers| && DeleteEvents(piers[..n], sub).raised
    ensures DeleteEvents(piers, sub) == DeleteEvents(piers[..n], sub)
    decreases |piers| - n
  {
    if n < |piers| {
      assert piers[..n + 1][..n] == piers[..n];
      DeleteEventsFailure(piers, sub, n + 1);
    } else {
      assert piers[..n] == piers;
    }
  }

  /** A pier's services are deleted exactly when the relay lists one of them. */
  lemma {:induction false} DeleteEventsMeaning(piers: seq<string>, sub: seq<Endpoint>, patp: string)
    requires !DeleteEvents(piers, sub).raised
    ensures DeleteService(patp, "urbit") in DeleteEvents(piers, sub).events <==>
      patp in piers && Services(patp, sub, false).Some? && AnyListed(Services(patp, sub, false).value)
    decreases |piers|
  {
    if piers != [] {
      var init := piers[..|piers| - 1];
      var last := piers[|piers| - 1];
      assert piers == init + [last];
      DeleteEventsMeaning(init, sub, patp);
    }
  }

  /** The outcome of a workflow that can raise: its events, the configuration it
      leaves and whether it ended with an uncaught exception. */
  datatype RunResult = RunResult(events: seq<Event>, doc: HostConfig, crashed: bool)

  /** The whole of `startram_change_endpoint`. `sub` is `anchor_data.get('subdomains')`
      and `endpoint` the form's `startram.endpoint` value. */
  function ChangeEndpointRun(doc: HostConfig, urbits: seq<PierNet>, stopOk: bool, sub: Option<seq<Endpoint>>, endpoint: Json): RunResult
  {
    var a := [Said("endpoint", "stopping")] + StopEvents(urbits, doc, stopOk);
    if !stopOk then RunResult(a + [Said("endpoint", "")], doc, false)
    else
      var d1 := doc.(wgOn := false);
      var removal := Removal(d1.piers, sub);
      if removal.raised then RunResult(a + removal.events, d1, true)
      else
        var d2 := d1.(endpointUrl := endpoint, wgRegistered := false, wgOn := false);
        RunResult(a + removal.events + EndpointTail(d2), d2, false)
  }

  /** The service removal of `startram_change_endpoint`, done only when the relay
      listed subdomains (`if sub:`). */
  function Removal(piers: seq<string>, sub: Option<seq<Endpoint>>): LoopResult
  {
    if sub.Some? && sub.value != [] then
      var deletes := DeleteEvents(piers, sub.value);
      LoopResult([Said("endpoint", "rm-services")] + deletes.events, deletes.raised)
    else LoopResult([], false)
  }

  /** The endpoint is replaced and the tunnel flags are cleared exactly when the stop
      succeeded and the service removal did not raise; a failed stop leaves the
      configuration as it was, and a raising removal leaves only `wgOn` cleared (the
      stop had already saved it). */
  lemma ChangeEndpointConfig(doc: HostConfig, urbits: seq<PierNet>, stopOk: bool, sub: Option<seq<Endpoint>>, endpoint: Json)
    ensures var r := ChangeEndpointRun(doc, urbits, stopOk, sub, endpoint);
      && (!stopOk ==> r.doc == doc && !r.crashed)
      && (stopOk && !r.crashed ==> r.doc == doc.(endpointUrl := endpoint, wgRegistered := false, wgOn := false))
      && (stopOk && r.crashed ==> r.doc == doc.(wgOn := false))
      && (r.crashed <==> stopOk && sub.Some? && sub.value != [] && DeleteEvents(doc.piers, sub.value).raised)
  {
  }

  /** `startram_change_endpoint` announces stopping, then rm-services only when the relay
      listed subdomains, reset-pubkey, changing, updating, success and the final empty
      value; after a failed stop only stopping and the final empty value. */
  lemma ChangeEndpointAnnouncements(doc: HostConfig, urbits: seq<PierNet>, stopOk: bool, sub: Option<seq<Endpoint>>, endpoint: Json)
    requires !ChangeEndpointRun(doc, urbits, stopOk, sub, endpoint).crashed
    ensures Announcements(ChangeEndpointRun(doc, urbits, stopOk, sub, endpoint).events, "endpoint")
      == if !stopOk then ["stopping", ""]
         else ["stopping"] + (if sub.Some? && sub.value != [] then ["rm-services"] else [])
              + ["reset-pubkey", "changing", "updating", "success", ""]
  {
    StopStartSilent(urbits, doc, stopOk, true);
    AnnouncementsOne(Said("endpoint", "stopping"), "endpoint");
    if !stopOk {
      ChangeEndpointStopFailed(doc, urbits, sub, endpoint);
    } else {
      ChangeEndpointStopped(doc, urbits, sub, endpoint);
    }
  }

  /** After a failed stop only "stopping" and the final empty value are announced. */
  lemma ChangeEndpointStopFailed(doc: HostConfig, urbits: seq<PierNet>, sub: Option<seq<Endpoint>>, endpoint: Json)
    requires Silent(StopEvents(urbits, doc, false))
    requires Announcements([Said("endpoint", "stopping")], "endpoint") == ["stopping"]
    ensures Announcements(ChangeEndpointRun(doc, urbits, false, sub, endpoint).events, "endpoint") == ["stopping", ""]
  {
    var stop := StopEvents(urbits, doc, false);
    assert ChangeEndpointRun(doc, urbits, false, sub, endpoint).events == [Said("endpoint", "stopping")] + stop + [Said("endpoint", "")];
    AnnouncementsAround([Said("endpoint", "stopping")], stop, [Said("endpoint", "")], "endpoint");
    AnnouncementsOne(Said("endpoint", ""), "endpoint");
  }

  /** After a successful stop the whole sequence is announced. */
  lemma ChangeEndpointStopped(doc: HostConfig, urbits: seq<PierNet>, sub: Option<seq<Endpoint>>, endpoint: Json)
    requires !ChangeEndpointRun(doc, urbits, true, sub, endpoint).crashed
    requires Silent(StopEvents(urbits, doc, true))
    requires Announcements([Said("endpoint", "stopping")], "endpoint") == ["stopping"]
    ensures Announcements(ChangeEndpointRun(doc, urbits, true, sub, endpoint).events, "endpoint")
      == ["stopping"] + (if sub.Some? && sub.value != [] then ["rm-services"] else [])
         + ["reset-pubkey", "changing", "updating", "success", ""]
  {
    var first: seq<Event> := [Said("endpoint", "stopping")];
    var stop := StopEvents(urbits, doc, true);
    var listed := sub.Some? && sub.value != [];
    var rm: seq<Event> := if listed then [Said("endpoint", "rm-services")] else [];
    var deletes: seq<Event> := if listed then DeleteEvents(doc.piers, sub.value).events else [];
    var d2 := doc.(wgOn := false).(endpointUrl := endpoint, wgRegistered := false, wgOn := false);
    assert Removal(doc.piers, sub).events == rm + deletes;
    assert ChangeEndpointRun(doc, urbits, true, sub, endpoint).events == first + stop + rm + deletes + EndpointTail(d2);
    if listed {
      DeleteEventsSilent(doc.piers, sub.value);
      AnnouncementsOne(Said("endpoint", "rm-services"), "endpoint");
    }
    AnnouncementsAround(first, stop, rm, "endpoint");
    AnnouncementsAround(first + stop + rm, deletes, EndpointTail(d2), "endpoint");
    EndpointTailAnnouncements(d2);
  }

  /** The events of `startram_change_endpoint` after the services were removed. */
  function EndpointTail(d: HostConfig): seq<Event>
  {
    [Said("endpoint", "reset-pubkey"), ResetPubkey, Said("endpoint", "changing"), Saved(d),
     Said("endpoint", "updating"), GetRegions, Said("endpoint", "success"), Said("endpoint", "")]
  }

  lemma EndpointTailAnnouncements(d: HostConfig)
    ensures Announcements(EndpointTail(d), "endpoint") == ["reset-pubkey", "changing", "updating", "success", ""]
  {
    var tail := EndpointTail(d);
    assert Announcements(tail[..1], "endpoint") == ["reset-pubkey"] by { assert tail[..1][..0] == []; }
    assert Announcements(tail[..2], "endpoint") == ["reset-pubkey"] by { assert tail[..2][..1] == tail[..1]; }
    assert Announcements(tail[..3], "endpoint") == ["reset-pubkey", "changing"] by { assert tail[..3][..2] == tail[..2]; }
    assert Announcements(tail[..4], "endpoint") == ["reset-pubkey", "changing"] by { assert tail[..4][..3] == tail[..3]; }
    assert Announcements(tail[..5], "endpoint") == ["reset-pubkey", "changing", "updating"] by { assert tail[..5][..4] == tail[..4]; }
    assert Announcements(tail[..6], "endpoint") == ["reset-pubkey", "changing", "updating"] by { assert tail[..6][..5] == tail[..5]; }
    assert Announcements(tail[..7], "endpoint") == ["reset-pubkey", "changing", "updating", "success"] by { assert tail[..7][..6] == tail[..6]; }
    assert Announcements(tail[..8], "endpoint") == ["reset-pubkey", "changing", "updating", "success", ""] by { assert tail[..8][..7] == tail[..7]; }
    assert tail[..8] == tail;
  }

  //
  //  What the status tree shows after a run
  //

  /** `system.startram.<action>` holds `v`. */
  predicate ShowsStatus(t: Tree, action: string, v: Json)
  {
    && "system" in t && t["system"].JObj?
    && "startram" in t["system"].fields && t["system"].fields["startram"].JObj?
    && action in t["system"].fields["startram"].fields
    && t["system"].fields["startram"].fields[action] == v
  }

  /** Every event keeps the status tree well shaped. */
  lemma ApplyKeepsShape(t: Tree, e: Event)
    requires WellShaped(t)
    ensures WellShaped(Apply(t, e))
  {
    match e
    case Said(action, info) => SystemPublishKeepsShape(t, "system", "startram", action, info);
    case PierSaid(patp, action, info) => UrbitPublishKeepsShape(t, patp, "startram", action, info);
    case _ =>
  }

  lemma {:induction false} ReplayKeepsShape(t: Tree, events: seq<Event>)
    requires WellShaped(t)
    ensures WellShaped(Replay(t, events))
    decreases |events|
  {
    if events != [] {
      ReplayKeepsShape(t, events[..|events| - 1]);
      ApplyKeepsShape(Replay(t, events[..|events| - 1]), events[|events| - 1]);
    }
  }

  /** An announcement lands at its leaf. */
  lemma SaidShows(t: Tree, action: string, info: string)
    requires WellShaped(t)
    ensures ShowsStatus(Apply(t, Said(action, info)), action, JStr(info))
  {
    SystemPublishKeepsShape(t, "system", "startram", action, info);
  }

  /** Any event other than an announcement under `action` keeps that leaf. */
  lemma ApplyKeepsStatus(t: Tree, e: Event, action: string, v: Json)
    requires WellShaped(t) && ShowsStatus(t, action, v)
    requires !(e.Said? && e.action == action)
    ensures ShowsStatus(Apply(t, e), action, v)
  {
    match e
    case Said(other, info) =>
      SystemPublishKeepsShape(t, "system", "startram", other, info);
      SystemPublishFrame(t, "system", "startram", other, JStr(info));
    case PierSaid(patp, other, info) =>
      UrbitPublishFrame(t, patp, "startram", other, JStr(info));
    case _ =>
  }

  /** After any run from a well-shaped tree, `system.startram.<action>` holds the
      last value announced under `action`. */
  lemma {:induction false} ReplayShowsLastAnnouncement(t: Tree, events: seq<Event>, action: string)
    requires WellShaped(t) && Announcements(events, action) != []
    ensures var said := Announcements(events, action);
      ShowsStatus(Replay(t, events), action, JStr(said[|said| - 1]))
    decreases |events|
  {
    var init := events[..|events| - 1];
    var e := events[|events| - 1];
    ReplayKeepsShape(t, init);
    if e.Said? && e.action == action {
      SaidShows(Replay(t, init), action, e.info);
    } else {
      assert Announcements(events, action) == Announcements(init, action);
      ReplayShowsLastAnnouncement(t, init, action);
      var said := Announcements(init, action);
      ApplyKeepsStatus(Replay(t, init), e, action, JStr(said[|said| - 1]));
    }
  }

  /** Stop and start publish nothing, so whatever the run did before them, the
      status tree is as they found it. */
  lemma StopStartLeaveTree(t: Tree, prefix: seq<Event>, urbits: seq<PierNet>, doc: HostConfig, stopOk: bool, startOk: bool)
    ensures Replay(t, prefix + StopEvents(urbits, doc, stopOk)) == Replay(t, prefix)
    ensures Replay(t, prefix + StartEvents(urbits, doc, startOk)) == Replay(t, prefix)
  {
    StopStartSilent(urbits, doc, stopOk, startOk);
    ReplayAppend(t, prefix, StopEvents(urbits, doc, stopOk));
    ReplaySilent(Replay(t, prefix), StopEvents(urbits, doc, stopOk));
    ReplayAppend(t, prefix, StartEvents(urbits, doc, startOk));
    ReplaySilent(Replay(t, prefix), StartEvents(urbits, doc, startOk));
  }

  /** A run that ends with an announcement leaves that value at its leaf. */
  lemma ReplayEndsWith(t: Tree, events: seq<Event>, action: string, info: string)
    requires WellShaped(t) && events != [] && events[|events| - 1] == Said(action, info)
    ensures ShowsStatus(Replay(t, events), action, JStr(info))
  {
    ReplayKeepsShape(t, events[..|events| - 1]);
    SaidShows(Replay(t, events[..|events| - 1]), action, info);
  }

  /** `startram_restart` ends by clearing `system.startram.restart`. */
  lemma RestartClearsStatus(t: Tree, urbits: seq<PierNet>, doc: HostConfig, stopOk: bool, startOk: bool, toggles: seq<Event>)
    requires WellShaped(t)
    ensures ShowsStatus(Replay(t, RestartEvents(urbits, doc, stopOk, startOk, toggles)), "restart", JStr(""))
  {
    ReplayEndsWith(t, RestartEvents(urbits, doc, stopOk, startOk, toggles), "restart", "");
  }

  /** A `startram_change_endpoint` that did not raise ends by clearing
      `system.startram.endpoint`. */
  lemma ChangeEndpointClearsStatus(t: Tree, doc: HostConfig, urbits: seq<PierNet>, stopOk: bool, sub: Option<seq<Endpoint>>, endpoint: Json)
    requires WellShaped(t) && !ChangeEndpointRun(doc, urbits, stopOk, sub, endpoint).crashed
    ensures ShowsStatus(Replay(t, ChangeEndpointRun(doc, urbits, stopOk, sub, endpoint).events), "endpoint", JStr(""))
  {
    ReplayEndsWith(t, ChangeEndpointRun(doc, urbits, stopOk, sub, endpoint).events, "endpoint", "");
  }

  /** A `startram_register` that finished leaves its `registered` answer in
      `system.startram.register`. */
  lemma RegisterShowsOutcome(t: Tree, doc: HostConfig, urbits: seq<PierNet>, ignored: Json, o: RegisterOracle)
    requires WellShaped(t) && RegisterRun(doc, urbits, ignored, o).outcome.Finished?
    ensures var r := RegisterRun(doc, urbits, ignored, o);
      ShowsStatus(Replay(t, r.events), "register", JStr(r.outcome.registered))
  {
    var r := RegisterRun(doc, urbits, ignored, o);
    assert r.events[|r.events| - 1] == Said("register", r.outcome.registered);
    ReplayEndsWith(t, r.events, "register", r.outcome.registered);
  }

  //
  //  `ws_command_urbit`
  //

  /** The background job a pier command starts. */
  datatype PierTask = MinioLink(patp: string) | MinioUnlink(patp: string) | MeldUrth(patp: string)
                    | ContainerRebuild(patp: string) | AccessToggleTask(patp: string)

  datatype CommandResult = Started(task: Option<PierTask>) | Rejected(message: string)

  const UrbitModules: set<string> := {"meld", "minio", "container", "access"}

  /** `ws_command_urbit`: a module outside the whitelist raises; a whitelisted one
      starts the job its action names, if any, and reports success. */
  function UrbitCommand(patp: string, mod: string, action: string): (r: CommandResult)
    ensures r.Rejected? <==> mod !in UrbitModules
    ensures r.Rejected? ==> r.message == mod + " is not a valid module"
  {
    if mod !in UrbitModules then Rejected(mod + " is not a valid module")
    else if mod == "minio" && action == "link" then Started(Some(MinioLink(patp)))
    else if mod == "minio" && action == "unlink" then Started(Some(MinioUnlink(patp)))
    else if mod == "meld" && action == "urth" then Started(Some(MeldUrth(patp)))
    else if mod == "container" && action == "rebuild" then Started(Some(ContainerRebuild(patp)))
    else if mod == "access" && action == "toggle" then Started(Some(AccessToggleTask(patp)))
    else Started(None)
  }

  /** The module and action that start a job. */
  function CommandOf(t: PierTask): (string, string)
  {
    match t
    case MinioLink(_) => ("minio", "link")
    case MinioUnlink(_) => ("minio", "unlink")
    case MeldUrth(_) => ("meld", "urth")
    case ContainerRebuild(_) => ("container", "rebuild")
    case AccessToggleTask(_) => ("access", "toggle")
  }

  /** Each job is started by exactly one module and action, for the pier it names. */
  lemma UrbitCommandTasks(patp: string, mod: string, action: string, t: PierTask)
    ensures UrbitCommand(t.patp, CommandOf(t).0, CommandOf(t).1) == Started(Some(t))
    ensures UrbitCommand(patp, mod, action) == Started(Some(t)) <==> (mod, action) == CommandOf(t) && patp == t.patp
  {
  }

  //
  //  The orchestrator's StarTram workflows
  //

  /** The part of the orchestrator the StarTram workflows use. `urbits` is
      `self.urbit._urbits` (insertion order kept), which these workflows never
      change, and `trace` records every broadcast and collaborator call in order. */
  class Orchestrator {
    const ws: WSUtil
    const config: ConfigStore
    const urbits: seq<PierNet>
    var trace: seq<Event>

    constructor (ws: WSUtil, urbits: seq<PierNet>)
      ensures this.ws == ws && config == ws.config && this.urbits == urbits && trace == []
    {
      this.ws := ws;
      this.config := ws.config;
      this.urbits := urbits;
      trace := [];
    }

    /** `system_broadcast('system', 'startram', action, info)`: the publish goes to the
        shared status tree and the trace records it. */
    method Say(action: string, info: string)
      modifies this, ws.structure
      ensures trace == old(trace) + [Said(action, info)]
    {
      var _ := ws.SystemBroadcast("system", "startram", action, JStr(info));
      trace := trace + [Said(action, info)];
    }

    /** `urbit_broadcast(patp, 'startram', action, info)`. */
    method PierSay(patp: string, action: string, info: string)
      modifies this, ws.structure
      ensures trace == old(trace) + [PierSaid(patp, action, info)]
    {
      var _ := ws.UrbitBroadcast(patp, "startram", action, JStr(info));
      trace := trace + [PierSaid(patp, action, info)];
    }

    /** `startram_stop`; `stopOk` is the answer of `wireguard.stop()`. */
    method StartramStop(stopOk: bool) returns (ok: bool)
      modifies this, config
      ensures ok == stopOk
      ensures trace == old(trace) + StopEvents(urbits, old(config.doc), stopOk)
      ensures config.doc == if ok then old(config.doc).(wgOn := false) else old(config.doc)
    {
      var calls := [McStop];
      var i := 0;
      while i < |urbits|
        invariant 0 <= i <= |urbits|
        invariant calls == [McStop] + StopPierEvents(urbits[..i])
      {
        var p := urbits[i];
        assert urbits[..i + 1][..i] == urbits[..i];
        calls := calls + [MinioStop(p.patp)];
        if p.network == "wireguard" {
          calls := calls + [AccessToggle(p.patp, "local")];
        }
        i := i + 1;
      }
      assert urbits[..i] == urbits;
      ok := stopOk;
      if ok {
        config.doc := config.doc.(wgOn := false);
        trace := trace + calls + [WgStop, Saved(config.doc)];
      } else {
        trace := trace + calls + [WgStop];
      }
    }

    /** `startram_start`; `startOk` is the answer of `wireguard.start()`. */
    method StartramStart(startOk: bool) returns (ok: bool)
      modifies this, config
      ensures ok == startOk
      ensures trace == old(trace) + StartEvents(urbits, old(config.doc), startOk)
      ensures config.doc == if ok then old(config.doc).(wgOn := true) else old(config.doc)
    {
      ok := startOk;
      if ok {
        config.doc := config.doc.(wgOn := true);
        var calls := [WgStart, Saved(config.doc), McStart];
        var i := 0;
        while i < |urbits|
          invariant 0 <= i <= |urbits|
          invariant calls == [WgStart, Saved(config.doc), McStart] + StartPierEvents(urbits[..i])
        {
          assert urbits[..i + 1][..i] == urbits[..i];
          calls := calls + [MinioStart(urbits[i].patp)];
          i := i + 1;
        }
        assert urbits[..i] == urbits;
        assert calls == [WgStart] + ([Saved(config.doc), McStart] + StartPierEvents(urbits));
        trace := trace + calls;
      } else {
        trace := trace + [WgStart];
      }
    }

    /** The remote set of `startram_restart`, built by its loop over `config['piers']`. */
    method RemotePiers() returns (remote: Option<set<string>>)
      ensures remote == RemoteSet(config.doc.piers, urbits)
    {
      var piers := config.doc.piers;
      var acc: set<string> := {};
      var i := 0;
      while i < |piers|
        invariant 0 <= i <= |piers|
        invariant RemoteSet(piers[..i], urbits) == Some(acc)
      {
        assert piers[..i + 1][..i] == piers[..i];
        var net := NetworkOf(urbits, piers[i]);
        if net.None? {
          assert RemoteSet(piers[..i + 1], urbits).None?;
          assert RemoteSet(piers, urbits).None? by {
            assert piers[i] == piers[..i + 1][i];
          }
          return None;
        }
        if net.value == "wireguard" {
          acc := acc + {piers[i]};
        }
        i := i + 1;
      }
      assert piers[..i] == piers;
      remote := Some(acc);
    }

    /** The loop `for p in remote: access_toggle(p, "remote")`. */
    method ToggleRemote(remote: set<string>) returns (toggles: seq<Event>)
      modifies this
      ensures TogglesRemote(toggles, remote)
      ensures trace == old(trace) + toggles
    {
      toggles := [];
      var left := remote;
      while left != {}
        invariant left <= remote
        invariant |toggles| + |left| == |remote|
        invariant forall i :: 0 <= i < |toggles| ==>
          toggles[i].AccessToggle? && toggles[i].mode == "remote" && toggles[i].patp in remote - left
        invariant forall p :: p in remote - left ==> AccessToggle(p, "remote") in toggles
        invariant trace == old(trace) + toggles
        decreases |left|
      {
        var p :| p in left;
        trace := trace + [AccessToggle(p, "remote")];
        toggles := toggles + [AccessToggle(p, "remote")];
        left := left - {p};
      }
    }

    /** The middle of `startram_restart`: stop, then start and re-toggle the remote set. */
    method StopStartToggle(stopOk: bool, startOk: bool, remote: set<string>) returns (toggles: seq<Event>)
      modifies this, config, ws.structure
      ensures trace == old(trace) + RestartMiddle(urbits, old(config.doc), stopOk, startOk, toggles)
      ensures stopOk && startOk ==> TogglesRemote(toggles, remote)
      ensures !(stopOk && startOk) ==> toggles == []
      ensures config.doc == if stopOk then old(config.doc).(wgOn := startOk) else old(config.doc)
    {
      ghost var doc := config.doc;
      toggles := [];
      var stopped := StartramStop(stopOk);
      if stopped {
        ghost var t2 := trace;
        Say("restart", "starting");
        ghost var t3 := trace;
        var started := StartramStart(startOk);
        assert trace == t3 + StartEvents(urbits, doc.(wgOn := false), startOk);
        if started {
          toggles := ToggleRemote(remote);
        }
      }
    }

    /** `startram_restart`; `stopOk` and `startOk` are the tunnel's answers. It crashes
        (a KeyError, with nothing after the first announcement) when a listed pier
        is unknown to the pier containers; `toggles` are the remote-access calls. */
    method StartramRestart(stopOk: bool, startOk: bool) returns (crashed: bool, toggles: seq<Event>)
      modifies this, config, ws.structure
      ensures crashed <==> RemoteSet(old(config.doc.piers), urbits).None?
      ensures crashed ==> trace == old(trace) + [Said("restart", "initializing")] && config.doc == old(config.doc)
      ensures !crashed ==> trace == old(trace) + RestartEvents(urbits, old(config.doc), stopOk, startOk, toggles)
      ensures !crashed && stopOk && startOk ==> TogglesRemote(toggles, RemoteSet(old(config.doc.piers), urbits).value)
      ensures !(stopOk && startOk) ==> toggles == []
      ensures !crashed ==> config.doc == if stopOk then old(config.doc).(wgOn := startOk) else old(config.doc)
    {
      ghost var doc := config.doc;
      toggles := [];
      Say("restart", "initializing");
      var remote := RemotePiers();
      if remote.None? {
        return true, [];
      }
      crashed := false;
      Say("restart", "stopping");
      ghost var head: seq<Event> := [Said("restart", "initializing"), Said("restart", "stopping")];
      ghost var tail: seq<Event> := [Said("restart", "success"), Said("restart", "")];
      AppendAssoc(old(trace), [Said("restart", "initializing")], [Said("restart", "stopping")]);
      toggles := StopStartToggle(stopOk, startOk, remote.value);
      ghost var middle := RestartMiddle(urbits, doc, stopOk, startOk, toggles);
      Say("restart", "success");
      Say("restart", "");
      AppendAssoc(old(trace) + head + middle, [Said("restart", "success")], [Said("restart", "")]);
      AppendAssoc(old(trace) + head, middle, tail);
      AppendAssoc(old(trace), head, middle + tail);
      AppendAssoc(head, middle, tail);
    }
 
    /** The `delete_service` loop of `startram_change_endpoint` over `config['piers']`;
        `ok` is false when `services_exist` raised. */
    method DeleteServices(sub: seq<Endpoint>) returns (ok: bool)
      modifies this
      ensures ok == !DeleteEvents(config.doc.piers, sub).raised
      ensures trace == old(trace) + DeleteEvents(config.doc.piers, sub).events
    {
      var piers := config.doc.piers;
      var i := 0;
      ghost var acc: seq<Event> := [];
      while i < |piers|
        invariant 0 <= i <= |piers|
        invariant DeleteEvents(piers[..i], sub) == LoopResult(acc, false)
        invariant trace == old(trace) + acc
      {
        var patp := piers[i];
        DeleteStep(piers, sub, i);
        var res := ws.ServicesExist(patp, sub, false);
        if res.None? {
          DeleteEventsFailure(piers, sub, i + 1);
          return false;
        }
        var listed := AnyListed(res.value);
        if listed {
          trace := trace + [DeleteService(patp, "urbit"), DeleteService("s3." + patp, "minio")];
        }
        AppendAssoc(old(trace), acc, Deletions(patp, listed));
        acc := acc + Deletions(patp, listed);
        i := i + 1;
      }
      assert piers[..i] == piers;
      ok := true;
    }

    /** `if sub:` and the `delete_service` loop; `crashed` when `services_exist` raised. */
    method RemoveServices(sub: Option<seq<Endpoint>>) returns (crashed: bool)
      modifies this, ws.structure
      ensures crashed == Removal(config.doc.piers, sub).raised
      ensures trace == old(trace) + Removal(config.doc.piers, sub).events
    {
      if sub.Some? && sub.value != [] {
        Say("endpoint", "rm-services");
        var ok := DeleteServices(sub.value);
        crashed := !ok;
      } else {
        crashed := false;
      }
    }

    /** The end of `startram_change_endpoint` after a successful stop: reset the key,
        store the new endpoint with the tunnel flags cleared, and refresh the regions. */
    method ChangeEndpoint(endpoint: Json)
      modifies this, config, ws.structure
      ensures config.doc == old(config.doc).(endpointUrl := endpoint, wgRegistered := false, wgOn := false)
      ensures trace == old(trace) + EndpointTail(config.doc)
    {
      Say("endpoint", "reset-pubkey");
      trace := trace + [ResetPubkey];
      Say("endpoint", "changing");
      config.doc := config.doc.(endpointUrl := endpoint, wgRegistered := false, wgOn := false);
      trace := trace + [Saved(config.doc)];
      Say("endpoint", "updating");
      trace := trace + [GetRegions];
      Say("endpoint", "success");
      Say("endpoint", "");
    }

    /** `startram_change_endpoint`; `stopOk` is the tunnel's answer to the stop and
        `sub` is `anchor_data.get('subdomains')`. The new endpoint is the form's
        `startram.endpoint` value of session `sid`. */
    method StartramChangeEndpoint(sid: string, stopOk: bool, sub: Option<seq<Endpoint>>) returns (crashed: bool)
      modifies this, config, ws.structure
      ensures var r := ChangeEndpointRun(old(config.doc), urbits, stopOk, sub, ws.GrabForm(sid, "startram", "endpoint"));
        trace == old(trace) + r.events && config.doc == r.doc && crashed == r.crashed
    {
      ghost var doc := config.doc;
      ghost var t0 := trace;
      ghost var a := [Said("endpoint", "stopping")] + StopEvents(urbits, doc, stopOk);
      Say("endpoint", "stopping");
      var stopped := StartramStop(stopOk);
      AppendAssoc(t0, [Said("endpoint", "stopping")], StopEvents(urbits, doc, stopOk));
      if !stopped {
        Say("endpoint", "");
        AppendAssoc(t0, a, [Said("endpoint", "")]);
        return false;
      }
      ghost var removal := Removal(doc.piers, sub);
      var crashedRemoving := RemoveServices(sub);
      AppendAssoc(t0, a, removal.events);
      if crashedRemoving {
        return true;
      }
      var newEndpoint := ws.GrabForm(sid, "startram", "endpoint");
      ChangeEndpoint(newEndpoint);
      AppendAssoc(t0, a + removal.events, EndpointTail(config.doc));
      crashed := false;
    }
 
    /** The service-request loop of `startram_register`. */
    method RequestServices(piers: seq<string>, sub: seq<Endpoint>, createRaises: (string, string) -> bool)
      modifies this
      ensures trace == old(trace) + RequestEvents(piers, sub, createRaises)
    {
      var i := 0;
      while i < |piers|
        invariant 0 <= i <= |piers|
        invariant trace == old(trace) + RequestEvents(piers[..i], sub, createRaises)
      {
        var patp := piers[i];
        ghost var done := RequestEvents(piers[..i], sub, createRaises);
        ghost var step := PierRequests(patp, sub, createRaises);
        RequestEventsPrefix(piers, i, sub, createRaises);
        ghost var before := trace;
        RequestPier(patp, sub, createRaises);
        assert trace == old(trace) + (done + step) by {
          assert before == old(trace) + done && trace == before + step;
        }
        i := i + 1;
      }
      assert piers[..i] == piers;
    }

    /** The body of the service-request loop for one pier. */
    method RequestPier(patp: string, sub: seq<Endpoint>, createRaises: (string, string) -> bool)
      modifies this
      ensures trace == old(trace) + PierRequests(patp, sub, createRaises)
    {
      var res := ws.ServicesExist(patp, sub, false);
      if res.Some? {
        var missingUrbit := UrbitMissing(res.value);
        var missingMinio := MinioMissing(res.value);
        if missingUrbit {
          trace := trace + [CreateService(patp, "urbit")];
        }
        if !(missingUrbit && createRaises(patp, "urbit")) && missingMinio {
          trace := trace + [CreateService("s3." + patp, "minio")];
        }
      }
    }

    /** One pass of the polling loop over the piers with a fresh endpoint list. */
    method PollRound(piers: seq<string>, sub: seq<Endpoint>, done0: set<string>) returns (done: set<string>, crashed: bool)
      modifies this, ws.structure
      ensures trace == old(trace) + Round(piers, sub, done0).events
      ensures done == Round(piers, sub, done0).done && crashed == Round(piers, sub, done0).crashed
    {
      done, crashed := done0, false;
      var i := 0;
      ghost var acc: seq<Event> := [];
      while i < |piers|
        invariant 0 <= i <= |piers|
        invariant Round(piers[..i], sub, done0) == RoundResult(acc, done, false)
        invariant trace == old(trace) + acc
      {
        var patp := piers[i];
        RoundStep(piers, sub, done0, i);
        var res := ws.ServicesExist(patp, sub, true);
        if res.None? {
          RoundFailure(piers, sub, done0, i + 1);
          return done, true;
        }
        var u, m := ServiceReadiness(res.value);
        AnnounceReady(patp, u, m);
        acc := acc + ReadyEvents(patp, u, m);
        if u && m {
          done := done + {patp};
        }
        i := i + 1;
      }
      assert piers[..i] == piers;
    }

    /** Publishes the ready halves of pier `patp`. */
    method AnnounceReady(patp: string, urbitReady: bool, minioReady: bool)
      modifies this, ws.structure
      ensures trace == old(trace) + ReadyEvents(patp, urbitReady, minioReady)
    {
      if urbitReady {
        PierSay(patp, "urbit", "registered");
      }
      if minioReady {
        PierSay(patp, "minio", "registered");
      }
    }

    /** The polling loop of `startram_register`, over the relay's successive answers. */
    method PollServices(piers: seq<string>, polls: seq<Option<seq<Endpoint>>>) returns (end: PollEnd)
      modifies this, ws.structure
      ensures trace == old(trace) + Poll(piers, polls, {}).events && end == Poll(piers, polls, {}).end
    {
      var done: set<string> := {};
      var k := 0;
      ghost var acc: seq<Event> := [];
      while |done| != |piers| && k < |polls|
        invariant 0 <= k <= |polls|
        invariant trace == old(trace) + acc
        invariant Poll(piers, polls, {}).events == acc + Poll(piers, polls[k..], done).events
        invariant Poll(piers, polls, {}).end == Poll(piers, polls[k..], done).end
        decreases |polls| - k
      {
        PollStep(piers, polls, done, k);
        if polls[k].Some? {
          ghost var r := Round(piers, polls[k].value, done);
          var crashed;
          done, crashed := PollRound(piers, polls[k].value, done);
          AppendAssoc(old(trace), acc, r.events);
          if crashed {
            return Crashed;
          }
          AppendAssoc(acc, r.events, Poll(piers, polls[k + 1..], done).events);
          acc := acc + r.events;
        }
        k := k + 1;
      }
      if |done| == |piers| {
        end := AllDone;
      } else {
        assert polls[k..] == [];
        end := Stalled;
      }
    }

    /** The access loop at the end of `startram_register`. */
    method ToggleAccess(piers: seq<string>, ignored: Json) returns (crash: Option<Failure>)
      modifies this
      ensures trace == old(trace) + ToggleRun(piers, urbits, ignored).events && crash == ToggleRun(piers, urbits, ignored).crash
    {
      var i := 0;
      ghost var acc: seq<Event> := [];
      while i < |piers|
        invariant 0 <= i <= |piers|
        invariant ToggleRun(piers[..i], urbits, ignored) == ToggleResult(acc, None)
        invariant trace == old(trace) + acc
      {
        var patp := piers[i];
        assert piers[..i + 1][..i] == piers[..i] && piers[..i + 1][i] == patp;
        var net := NetworkOf(urbits, patp);
        if net.None? {
          assert ToggleRun(piers[..i + 1], urbits, ignored) == ToggleResult(acc, Some(MissingKey(patp)));
          ToggleRunFailure(piers, urbits, ignored, i + 1);
          return Some(MissingKey(patp));
        }
        var mode := "remote";
        if net.value != "wireguard" {
          var listed := InIgnored(ignored, patp);
          if listed.None? {
            assert ToggleRun(piers[..i + 1], urbits, ignored) == ToggleResult(acc, Some(NotContainer(TypeName(ignored))));
            ToggleRunFailure(piers, urbits, ignored, i + 1);
            return Some(NotContainer(TypeName(ignored)));
          }
          if listed.value {
            mode := "local";
          }
        }
        assert ToggleRun(piers[..i + 1], urbits, ignored) == ToggleResult(acc + [AccessToggle(patp, mode)], None);
        AppendAssoc(old(trace), acc, [AccessToggle(patp, mode)]);
        trace := trace + [AccessToggle(patp, mode)];
        acc := acc + [AccessToggle(patp, mode)];
        i := i + 1;
      }
      assert piers[..i] == piers;
      crash := None;
    }
 
    /** The tunnel phase of `startram_register`. */
    method RegisterTunnel(o: RegisterOracle) returns (failure: Option<Failure>)
      modifies this, config, ws.structure
      ensures trace == old(trace) + TunnelRun(old(config.doc), o).events
      ensures config.doc == TunnelRun(old(config.doc), o).doc && failure == TunnelRun(old(config.doc), o).failure
    {
      Say("register", "registering");
      if !o.deviceOk {
        return Some(DeviceFailed);
      }
      Say("register", "updating");
      if !o.statusOk {
        return Some(StatusFailed);
      }
      if o.conf.None? {
        return Some(MissingKey("conf"));
      }
      if !o.confOk {
        return Some(ConfFailed);
      }
      config.doc := config.doc.(wgRegistered := true);
      trace := trace + [Saved(config.doc)];
      trace := trace + [WgStart];
      if !o.startOk {
        return Some(WgStartFailed);
      }
      failure := RegisterStarted();
    }

    /** The tunnel is up: record it and start the MinIO client. */
    method RegisterStarted() returns (failure: Option<Failure>)
      modifies this, config, ws.structure
      ensures failure.None?
      ensures config.doc == old(config.doc).(wgOn := true)
      ensures trace == old(trace) + [Said("register", "start-wg"), Saved(config.doc), Said("register", "start-mc"), McStart, Said("register", "success")]
    {
      Say("register", "start-wg");
      config.doc := config.doc.(wgOn := true);
      trace := trace + [Saved(config.doc)];
      Say("register", "start-mc");
      trace := trace + [McStart];
      Say("register", "success");
      failure := None;
    }

    /** The service phase of `startram_register`; the access loop reads the form's
        `startram.ships` value of session `sid`, with `None` read as `[]`. */
    method RegisterServices(sid: string, o: RegisterOracle) returns (failure: Option<Failure>, stalled: bool)
      modifies this, ws.structure
      ensures var r := ServicesRun(config.doc, urbits, ws.GrabForm(sid, "startram", "ships"), o);
        trace == old(trace) + r.events && failure == r.failure && stalled == r.stalled
    {
      var piers := config.doc.piers;
      if o.subdomains.None? {
        return Some(MissingKey("subdomains")), false;
      }
      ghost var req := RequestEvents(piers, o.subdomains.value, o.createRaises);
      ghost var pt := PollAndToggle(piers, urbits, ws.GrabForm(sid, "startram", "ships"), o.polls);
      assert ServicesRun(config.doc, urbits, ws.GrabForm(sid, "startram", "ships"), o)
        == ServicesOutcome(req + pt.events, pt.failure, pt.stalled);
      ghost var t0 := trace;
      RequestServices(piers, o.subdomains.value, o.createRaises);
      ghost var t1 := trace;
      failure, stalled := PollAndToggleAccess(sid, piers, o.polls);
      AppendAssoc(t0, req, pt.events);
    }

    /** The polling loop, then the access loop over the form's `startram.ships` value. */
    method PollAndToggleAccess(sid: string, piers: seq<string>, polls: seq<Option<seq<Endpoint>>>) returns (failure: Option<Failure>, stalled: bool)
      modifies this, ws.structure
      ensures var r := PollAndToggle(piers, urbits, ws.GrabForm(sid, "startram", "ships"), polls);
        trace == old(trace) + r.events && failure == r.failure && stalled == r.stalled
    {
      ghost var p := Poll(piers, polls, {});
      var end := PollServices(piers, polls);
      if end == Stalled {
        return None, true;
      }
      if end == Crashed {
        return Some(IndexOutOfRange), false;
      }
      var ignored := ws.GrabForm(sid, "startram", "ships");
      ghost var t1 := trace;
      failure := ToggleAccess(piers, ignored);
      assert trace == t1 + ToggleRun(piers, urbits, ignored).events;
      stalled := false;
    }

    /** The exception handler and the final broadcast of `startram_register`. */
    method ReportFailure(f: Failure, registered: string)
      modifies this, ws.structure
      ensures trace == old(trace) + Report(f, registered)
    {
      Say("register", "failure\n" + FailureText(f));
      Say("register", registered);
    }

    /** `startram_register` for session `sid`; `o` holds the collaborators' answers.
        `StillPolling` is the run whose relay answers ran out before every pier was
        ready (the source keeps polling). */
    method StartramRegister(sid: string, o: RegisterOracle) returns (outcome: RegisterOutcome)
      modifies this, config, ws.structure
      ensures var r := RegisterRun(old(config.doc), urbits, ws.GrabForm(sid, "startram", "ships"), o);
        trace == old(trace) + r.events && config.doc == r.doc && outcome == r.outcome
    {
      ghost var doc := config.doc;
      ghost var ignored := ws.GrabForm(sid, "startram", "ships");
      ghost var t := TunnelRun(doc, o);
      ghost var r := RegisterRun(doc, urbits, ignored, o);
      var failure := RegisterTunnel(o);
      if failure.Some? {
        assert r == Fail(t.events, t.doc, t.failure.value, "no");
        ReportFailure(failure.value, "no");
        return Finished("no");
      }
      ghost var f := RegisterFinish(t.doc, urbits, ignored, o);
      assert r == RegisterResult(t.events + f.events, t.doc, f.outcome);
      ghost var t1 := trace;
      outcome := RegisterAfterTunnel(sid, o);
      assert trace == t1 + f.events;
    }

    /** `startram_register` after the tunnel phase succeeded. */
    method RegisterAfterTunnel(sid: string, o: RegisterOracle) returns (outcome: RegisterOutcome)
      modifies this, ws.structure
      ensures var r := RegisterFinish(config.doc, urbits, ws.GrabForm(sid, "startram", "ships"), o);
        trace == old(trace) + r.events && outcome == r.outcome
    {
      ghost var s := ServicesRun(config.doc, urbits, ws.GrabForm(sid, "startram", "ships"), o);
      var failure, stalled := RegisterServices(sid, o);
      if stalled {
        return StillPolling;
      }
      ghost var t1 := trace;
      if failure.Some? {
        ReportFailure(failure.value, "yes");
        return Finished("yes");
      }
      Say("register", "yes");
      outcome := Finished("yes");
    }
  }
}
