/** api/orchestrator.py: the fleet bookkeeping of the host — the configuration
    document with its defaults and legacy migration, the pier table with its
    port allocation, the per-pier network decision and the matching of relay
    endpoints to a pier. Containers, files and the relay are collaborators. */
module Fleet {
  import opened Json
  import opened Strings
  import opened Relay

  type Doc = map<string, Json>

  /** `Orchestrator.gs_version`. */
  const GsVersion := "Beta-3.0.0"

  //
  //  Configuration document
  //

  /** `check_config_field`: add `field = default` only when the field is absent;
      an existing value is never overwritten. */
  function CheckConfigField(cfg: Doc, field: string, default: Json): (r: Doc)
    ensures forall k :: k in cfg ==> k in r && r[k] == cfg[k]
    ensures field in r && forall k :: k in r ==> k in cfg || k == field
    ensures field !in cfg ==> r[field] == default
  {
    cfg[field := if field in cfg then cfg[field] else default]
  }

  /** The fields `load_config` guarantees. */
  const DefaultKeys: set<string> := {"firstBoot", "piers", "endpointUrl", "apiVersion", "wgRegistered", "updateMode"}

  /** A field that is already present is left as it is. */
  lemma CheckConfigFieldPresent(cfg: Doc, field: string, default: Json)
    requires field in cfg
    ensures CheckConfigField(cfg, field, default) == cfg
  {
  }

  /** The six `check_config_field` calls of `load_config`, in order. */
  function WithDefaults(cfg: Doc): (r: Doc)
    ensures forall k :: k in cfg ==> k in r && r[k] == cfg[k]
    ensures forall k :: k in r ==> k in cfg || k in DefaultKeys
    ensures "firstBoot" in r && ("firstBoot" !in cfg ==> r["firstBoot"] == JBool(true))
    ensures "piers" in r && ("piers" !in cfg ==> r["piers"] == JArr([]))
    ensures "endpointUrl" in r && ("endpointUrl" !in cfg ==> r["endpointUrl"] == JStr("api.startram.io"))
    ensures "apiVersion" in r && ("apiVersion" !in cfg ==> r["apiVersion"] == JStr("v1"))
    ensures "wgRegistered" in r && ("wgRegistered" !in cfg ==> r["wgRegistered"] == JBool(false))
    ensures "updateMode" in r && ("updateMode" !in cfg ==> r["updateMode"] == JStr("auto"))
  {
    var c1 := CheckConfigField(cfg, "firstBoot", JBool(true));
    var c2 := CheckConfigField(c1, "piers", JArr([]));
    var c3 := CheckConfigField(c2, "endpointUrl", JStr("api.startram.io"));
    var c4 := CheckConfigField(c3, "apiVersion", JStr("v1"));
    var c5 := CheckConfigField(c4, "wgRegistered", JBool(false));
    CheckConfigField(c5, "updateMode", JStr("auto"))
  }

  /** Whether the legacy `reg_key` migration fires. */
  predicate HasLegacyRegKey(cfg: Doc)
  {
    "reg_key" in cfg && cfg["reg_key"] != JNull
  }

  /** The `reg_key` migration: a legacy key that is not null marks the device
      registered and is cleared; otherwise the document is left alone. */
  function MigrateRegKey(cfg: Doc): (r: Doc)
    ensures HasLegacyRegKey(cfg) ==> r == cfg["wgRegistered" := JBool(true)]["reg_key" := JNull]
    ensures !HasLegacyRegKey(cfg) ==> r == cfg
    ensures !HasLegacyRegKey(r)
    ensures r.Keys == cfg.Keys + (if HasLegacyRegKey(cfg) then {"wgRegistered"} else {})
    ensures forall k :: k in cfg && k != "wgRegistered" && k != "reg_key" ==> r[k] == cfg[k]
  {
    if HasLegacyRegKey(cfg) then cfg["wgRegistered" := JBool(true)]["reg_key" := JNull] else cfg
  }

  /** The stored document `load_config` starts from: `None` stands for a file that
      is missing or not valid JSON, which leaves `{}`. */
  function FileDoc(file: Option<Doc>): Doc
  {
    if file.Some? then file.value else map[]
  }

  /** `load_config`: the six fields and `gsVersion` are present, and no non-null
      `reg_key` is left (the key itself stays, set to null). */
  function LoadConfig(file: Option<Doc>): (r: Doc)
    ensures "gsVersion" in r && r["gsVersion"] == JStr(GsVersion)
    ensures DefaultKeys <= r.Keys
    ensures !HasLegacyRegKey(r)
  {
    MigrateRegKey(WithDefaults(FileDoc(file))["gsVersion" := JStr(GsVersion)])
  }

  /** `load_config` adds nothing to the stored document but the six fields and
      `gsVersion`. */
  lemma LoadConfigKeys(file: Option<Doc>)
    ensures forall k :: k in LoadConfig(file) ==> k in FileDoc(file) || k in DefaultKeys || k == "gsVersion"
  {
    var g := WithDefaults(FileDoc(file))["gsVersion" := JStr(GsVersion)];
    assert LoadConfig(file).Keys <= g.Keys + {"wgRegistered"};
  }

  /** `load_config` keeps every stored value other than `gsVersion`, `wgRegistered`
      and `reg_key`. */
  lemma LoadConfigKeepsValues(file: Option<Doc>)
    ensures forall k :: k in FileDoc(file) && k != "gsVersion" && k != "wgRegistered" && k != "reg_key" ==>
      k in LoadConfig(file) && LoadConfig(file)[k] == FileDoc(file)[k]
  {
  }

  /** `load_config` fills an absent field with its default (`wgRegistered` can then
      still be set by the migration, see below). */
  lemma LoadConfigDefaults(file: Option<Doc>)
    ensures "firstBoot" !in FileDoc(file) ==> LoadConfig(file)["firstBoot"] == JBool(true)
    ensures "piers" !in FileDoc(file) ==> LoadConfig(file)["piers"] == JArr([])
    ensures "endpointUrl" !in FileDoc(file) ==> LoadConfig(file)["endpointUrl"] == JStr("api.startram.io")
    ensures "apiVersion" !in FileDoc(file) ==> LoadConfig(file)["apiVersion"] == JStr("v1")
    ensures "updateMode" !in FileDoc(file) ==> LoadConfig(file)["updateMode"] == JStr("auto")
  {
    var d := WithDefaults(FileDoc(file));
    var g := d["gsVersion" := JStr(GsVersion)];
    assert LoadConfig(file) == MigrateRegKey(g);
    forall k | k in d && k != "gsVersion" && k != "wgRegistered" && k != "reg_key"
      ensures LoadConfig(file)[k] == d[k]
    {
      assert g[k] == d[k];
    }
  }

  /** The `reg_key` migration of `load_config`: a stored key that is not null sets
      `wgRegistered` and is cleared; otherwise `wgRegistered` is the stored value or
      False, and `reg_key` is left as stored. */
  lemma LoadConfigMigration(file: Option<Doc>)
    ensures HasLegacyRegKey(FileDoc(file)) ==> LoadConfig(file)["wgRegistered"] == JBool(true) && LoadConfig(file)["reg_key"] == JNull
    ensures !HasLegacyRegKey(FileDoc(file)) ==>
      && LoadConfig(file)["wgRegistered"] == (if "wgRegistered" in FileDoc(file) then FileDoc(file)["wgRegistered"] else JBool(false))
      && ("reg_key" in FileDoc(file) ==> LoadConfig(file)["reg_key"] == FileDoc(file)["reg_key"])
  {
    var d := WithDefaults(FileDoc(file));
    var g := d["gsVersion" := JStr(GsVersion)];
    assert "reg_key" in FileDoc(file) ==> g["reg_key"] == FileDoc(file)["reg_key"];
    assert HasLegacyRegKey(g) == HasLegacyRegKey(FileDoc(file));
  }

  /** Loading a document that `load_config` produced gives it back: defaults are
      only added once and the migration stays cleared. */
  lemma LoadConfigIdempotent(file: Option<Doc>)
    ensures LoadConfig(Some(LoadConfig(file))) == LoadConfig(file)
  {
    var r := LoadConfig(file);
    assert FileDoc(Some(r)) == r;
    WithDefaultsComplete(r);
    RewriteSameValue(r, "gsVersion", JStr(GsVersion));
  }

  /** Storing the value a field already holds changes nothing. */
  lemma RewriteSameValue(cfg: Doc, field: string, value: Json)
    requires field in cfg && cfg[field] == value
    ensures cfg[field := value] == cfg
  {
  }

  /** A document that already holds the six fields gets no defaults. */
  lemma WithDefaultsComplete(cfg: Doc)
    requires DefaultKeys <= cfg.Keys
    ensures WithDefaults(cfg) == cfg
  {
    CheckConfigFieldPresent(cfg, "firstBoot", JBool(true));
    CheckConfigFieldPresent(cfg, "piers", JArr([]));
    CheckConfigFieldPresent(cfg, "endpointUrl", JStr("api.startram.io"));
    CheckConfigFieldPresent(cfg, "apiVersion", JStr("v1"));
    CheckConfigFieldPresent(cfg, "wgRegistered", JBool(false));
    CheckConfigFieldPresent(cfg, "updateMode", JStr("auto"));
  }

  /** `set_update_mode`: 'auto' becomes 'off', anything else becomes 'auto'. */
  function NextUpdateMode(mode: Json): (r: Json)
    ensures r == JStr("off") <==> mode == JStr("auto")
    ensures r == JStr("auto") <==> mode != JStr("auto")
  {
    if mode == JStr("auto") then JStr("off") else JStr("auto")
  }

  /** Toggling twice restores either of the two modes. */
  lemma UpdateModeInvolution(mode: Json)
    requires mode == JStr("auto") || mode == JStr("off")
    ensures NextUpdateMode(NextUpdateMode(mode)) == mode
  {
  }

  //
  //  Network decision
  //

  /** The decision of `toggle_pier_network`. */
  function NetworkTarget(network: string, wgRegistered: Json, wgRunning: bool): (r: string)
    ensures r == "wireguard" <==> (network == "none" && Truthy(wgRegistered) && wgRunning)
    ensures r == "none" <==> !(network == "none" && Truthy(wgRegistered) && wgRunning)
  {
    if network == "none" && Truthy(wgRegistered) && wgRunning then "wireguard" else "none"
  }

  /** A pier on the tunnel is always sent back to 'none', whatever else holds. */
  lemma WireguardPierGoesLocal(wgRegistered: Json, wgRunning: bool)
    ensures NetworkTarget("wireguard", wgRegistered, wgRunning) == "none"
  {
  }

  //
  //  Relay endpoint matching in `register_urbit`
  //

  /** `'.'.join(endpointUrl.split('.')[1:])`. */
  function PubUrl(endpointUrl: string): string
  {
    Join(Split(endpointUrl, '.')[1..], '.')
  }

  /** The public domain is the endpoint URL without its first label. */
  lemma PubUrlDropsFirstLabel(first: string, rest: string)
    requires '.' !in first
    ensures PubUrl(first + "." + rest) == rest
  {
    SplitFirst(first, rest, '.');
    JoinSplit(rest, '.');
    assert ([first] + Split(rest, '.'))[1..] == Split(rest, '.');
  }

  function HttpHost(patp: string, pub: string): string { patp + "." + pub }
  function AmesHost(patp: string, pub: string): string { "ames." + patp + "." + pub }
  function BucketHost(patp: string, pub: string): string { "bucket.s3." + patp + "." + pub }
  function ConsoleHost(patp: string, pub: string): string { "console.s3." + patp + "." + pub }

  /** The port of the last endpoint whose hostname is exactly `host`. */
  function LastPort(subdomains: seq<Endpoint>, host: string): Option<int>
    decreases |subdomains|
  {
    if subdomains == [] then None
    else if subdomains[|subdomains| - 1].url == host then Some(subdomains[|subdomains| - 1].port)
    else LastPort(subdomains[..|subdomains| - 1], host)
  }

  /** `LastPort` is None exactly when no endpoint has the hostname, and otherwise
      the port of a matching endpoint after which none matches. */
  lemma {:induction false} LastPortMeaning(subdomains: seq<Endpoint>, host: string)
    ensures LastPort(subdomains, host).None? <==> forall i :: 0 <= i < |subdomains| ==> subdomains[i].url != host
    ensures LastPort(subdomains, host).Some? ==>
      exists i :: 0 <= i < |subdomains| && subdomains[i].url == host && subdomains[i].port == LastPort(subdomains, host).value
        && forall j :: i < j < |subdomains| ==> subdomains[j].url != host
    decreases |subdomains|
  {
    if subdomains != [] {
      var init := subdomains[..|subdomains| - 1];
      LastPortMeaning(init, host);
      if subdomains[|subdomains| - 1].url != host {
        if LastPort(init, host).Some? {
          var i :| 0 <= i < |init| && init[i].url == host && init[i].port == LastPort(init, host).value
            && forall j :: i < j < |init| ==> init[j].url != host;
          assert subdomains[i] == init[i];
          assert forall j :: i < j < |subdomains| ==> subdomains[j].url != host by {
            forall j | i < j < |subdomains| ensures subdomains[j].url != host {
              if j < |init| { assert subdomains[j] == init[j]; }
            }
          }
        } else {
          forall i | 0 <= i < |subdomains| ensures subdomains[i].url != host {
            if i < |init| { assert subdomains[i] == init[i]; }
          }
        }
      } else {
        assert subdomains[|subdomains| - 1].url == host;
      }
    }
  }

  /** The wireguard settings `register_urbit` hands to the pier. */
  datatype WgPorts = WgPorts(url: Option<string>, httpPort: Option<int>, amesPort: Option<int>,
                             s3Port: Option<int>, consolePort: Option<int>)

  /** The four hostname patterns of a pier never coincide (their lengths differ). */
  lemma HostsDistinct(patp: string, pub: string)
    ensures HttpHost(patp, pub) != AmesHost(patp, pub) && HttpHost(patp, pub) != BucketHost(patp, pub)
    ensures HttpHost(patp, pub) != ConsoleHost(patp, pub) && AmesHost(patp, pub) != BucketHost(patp, pub)
    ensures AmesHost(patp, pub) != ConsoleHost(patp, pub) && BucketHost(patp, pub) != ConsoleHost(patp, pub)
  {
    assert |AmesHost(patp, pub)| == |HttpHost(patp, pub)| + 5;
    assert |BucketHost(patp, pub)| == |HttpHost(patp, pub)| + 10;
    assert |ConsoleHost(patp, pub)| == |HttpHost(patp, pub)| + 11;
  }

  /** The port-assignment loop of `register_urbit`: each field comes from the last
      endpoint whose hostname equals its pattern exactly, and stays None otherwise. */
  method AssignWireguardPorts(patp: string, endpointUrl: string, subdomains: seq<Endpoint>) returns (ports: WgPorts)
    ensures var pub := PubUrl(endpointUrl);
      && ports.httpPort == LastPort(subdomains, HttpHost(patp, pub))
      && ports.url == (if ports.httpPort.Some? then Some(HttpHost(patp, pub)) else None)
      && ports.amesPort == LastPort(subdomains, AmesHost(patp, pub))
      && ports.s3Port == LastPort(subdomains, BucketHost(patp, pub))
      && ports.consolePort == LastPort(subdomains, ConsoleHost(patp, pub))
  {
    var pub := PubUrl(endpointUrl);
    HostsDistinct(patp, pub);
    var url: Option<string> := None;
    var httpPort: Option<int> := None;
    var amesPort: Option<int> := None;
    var s3Port: Option<int> := None;
    var consolePort: Option<int> := None;
    var i := 0;
    while i < |subdomains|
      invariant 0 <= i <= |subdomains|
      invariant httpPort == LastPort(subdomains[..i], HttpHost(patp, pub))
      invariant url == (if httpPort.Some? then Some(HttpHost(patp, pub)) else None)
      invariant amesPort == LastPort(subdomains[..i], AmesHost(patp, pub))
      invariant s3Port == LastPort(subdomains[..i], BucketHost(patp, pub))
      invariant consolePort == LastPort(subdomains[..i], ConsoleHost(patp, pub))
    {
      var ep := subdomains[i];
      assert subdomains[..i + 1][..i] == subdomains[..i];
      if HttpHost(patp, pub) == ep.url {
        url := Some(ep.url);
        httpPort := Some(ep.port);
      } else if AmesHost(patp, pub) == ep.url {
        amesPort := Some(ep.port);
      } else if BucketHost(patp, pub) == ep.url {
        s3Port := Some(ep.port);
      } else if ConsoleHost(patp, pub) == ep.url {
        consolePort := Some(ep.port);
      }
      i := i + 1;
    }
    assert subdomains[..i] == subdomains;
    ports := WgPorts(url, httpPort, amesPort, s3Port, consolePort);
  }

  /** The presence check of `register_urbit` as written: the pier counts as known
      when its name occurs anywhere inside some endpoint hostname (`patp in ep['url']`).
      A failed status query (`None`) counts as unknown. */
  predicate KnownBySubstring(patp: string, status: Option<seq<Endpoint>>)
  {
    status.Some? && exists i :: 0 <= i < |status.value| && IsSubstring(patp, status.value[i].url)
  }

  /** The presence check as intended: some endpoint hostname belongs to the pier,
      i.e. its label at index -3 is exactly the pier name (the rule `services_exist` uses). */
  predicate KnownByLabel(patp: string, status: Option<seq<Endpoint>>)
  {
    status.Some? && exists i :: (0 <= i < |status.value|
      && HasPierSegment(status.value[i].url) && PierSegment(status.value[i].url) == patp)
  }

  /** Whether `register_urbit` as written asks the relay for the pier's two services
      (`patp` as 'urbit' and `s3.patp` as 'minio'): only when no endpoint hostname
      contains the pier's name. */
  function RequestsServicesAsWritten(patp: string, status: Option<seq<Endpoint>>): bool
  {
    !KnownBySubstring(patp, status)
  }

  /** The intended request rule: ask for the services unless some endpoint hostname
      carries the pier's own label. The rest of the model uses this rule. */
  function RequestsServices(patp: string, status: Option<seq<Endpoint>>): bool
  {
    !KnownByLabel(patp, status)
  }

  /** As written, a planet is taken as registered as soon as one of its moons is:
      the moon's hostname contains the planet's name, so the planet's services are
      never requested, although no endpoint is the planet's. */
  lemma SubstringCheckShadowsPier()
    ensures var status := Some([Endpoint("doznec-sampel-palnet" + "." + "x" + "." + "io", "urbit-web", JStr("ok"), 1)]);
      && KnownBySubstring("sampel-palnet", status)
      && !KnownByLabel("sampel-palnet", status)
  {
    var url := "doznec-sampel-palnet" + "." + "x" + "." + "io";
    assert "sampel-palnet" <= url[7..];
    assert IsSubstring("sampel-palnet", [Endpoint(url, "urbit-web", JStr("ok"), 1)][0].url);
    PierSegmentOf("doznec-sampel-palnet", "x", "io");
  }

  /** On that input the two request rules disagree: as written the planet's services
      are not requested, under the intended rule they are. */
  lemma RequestRulesDisagreeOnMoon()
    ensures var status := Some([Endpoint("doznec-sampel-palnet" + "." + "x" + "." + "io", "urbit-web", JStr("ok"), 1)]);
      && !RequestsServicesAsWritten("sampel-palnet", status)
      && RequestsServices("sampel-palnet", status)
  {
    SubstringCheckShadowsPier();
  }

  /** With the label rule, a pier is requested exactly when none of the four hostnames
      of its own services is listed, for a dot-free pier name and two-label domain. */
  lemma RequestsServicesOwnHosts(patp: string, d1: string, d2: string, subdomains: seq<Endpoint>)
    requires '.' !in patp && '.' !in d1 && '.' !in d2
    requires exists i :: 0 <= i < |subdomains| && subdomains[i].url == HttpHost(patp, d1 + "." + d2)
    ensures !RequestsServices(patp, Some(subdomains))
  {
    var i :| 0 <= i < |subdomains| && subdomains[i].url == HttpHost(patp, d1 + "." + d2);
    PierSegmentOf(patp, d1, d2);
    assert HttpHost(patp, d1 + "." + d2) == patp + "." + d1 + "." + d2;
  }

  //
  //  The orchestrator's pier table
  //

  /** What the orchestrator reads of a pier's configuration. */
  datatype Pier = Pier(httpPort: int, amesPort: int, network: string)

  /** No two piers share an http port or an ames port. */
  predicate PortsDistinct(urbits: map<string, Pier>)
  {
    forall p, q :: p in urbits && q in urbits && p != q ==>
      urbits[p].httpPort != urbits[q].httpPort && urbits[p].amesPort != urbits[q].amesPort
  }

  /** The pier of `toggle_anchor_off`'s loop: a tunnel pier is switched to 'none' when
      the container accepts the change. */
  function AnchorOffPier(patp: string, pier: Pier, setNetwork: (string, string) -> int): Pier
  {
    if pier.network == "wireguard" && setNetwork(patp, "none") == 0 then pier.(network := "none") else pier
  }

  class Orchestrator {
    var config: Doc
    /** `_urbits`, reduced to what the bookkeeping reads. */
    var urbits: map<string, Pier>
    /** The keys of `_minios`. */
    var minios: set<string>
    var minIOOn: bool
    /** Whether the wireguard container is up. */
    var tunnelUp: bool

    /** Every field `load_config` guarantees is present. */
    predicate Valid()
      reads this
    {
      && "firstBoot" in config && "piers" in config && "endpointUrl" in config
      && "apiVersion" in config && "wgRegistered" in config && "updateMode" in config
    }

    /** The bookkeeping part of `__init__`: the loaded configuration, where a first boot
        stores the new key pair (`pubkey`, `privkey`, generated by `wg`) and is marked
        done; the tunnel and the buckets are restarted when the device is registered;
        no piers yet (`load_urbits` is left out). */
    constructor (file: Option<Doc>, pubkey: string, privkey: string)
      ensures var loaded := LoadConfig(file);
        config == if Truthy(loaded["firstBoot"])
                  then loaded["pubkey" := JStr(pubkey)]["privkey" := JStr(privkey)]["firstBoot" := JBool(false)]
                  else loaded
      ensures urbits == map[] && minios == {}
      ensures tunnelUp <==> Truthy(LoadConfig(file)["wgRegistered"])
      ensures minIOOn == tunnelUp
      ensures Valid()
    {
      var loaded := LoadConfig(file);
      var registered := Truthy(loaded["wgRegistered"]);
      if Truthy(loaded["firstBoot"]) {
        loaded := loaded["pubkey" := JStr(pubkey)]["privkey" := JStr(privkey)]["firstBoot" := JBool(false)];
      }
      assert DefaultKeys <= loaded.Keys;
      config := loaded;
      urbits := map[];
      minios := {};
      tunnelUp := registered;
      minIOOn := registered;
    }

    /** `get_open_urbit_ports`: one more than the running maximum of the existing
        http ports (from 8080) and ames ports (from 34343). */
    method GetOpenUrbitPorts() returns (http: int, ames: int)
      ensures http > 8080 && forall p :: p in urbits ==> urbits[p].httpPort < http
      ensures http == 8081 || exists p :: p in urbits && urbits[p].httpPort + 1 == http
      ensures ames > 34343 && forall p :: p in urbits ==> urbits[p].amesPort < ames
      ensures ames == 34344 || exists p :: p in urbits && urbits[p].amesPort + 1 == ames
    {
      http := 8080;
      ames := 34343;
      var remaining := urbits.Keys;
      while remaining != {}
        invariant remaining <= urbits.Keys
        invariant http >= 8080 && ames >= 34343
        invariant forall p :: p in urbits && p !in remaining ==> urbits[p].httpPort <= http
        invariant forall p :: p in urbits && p !in remaining ==> urbits[p].amesPort <= ames
        invariant http == 8080 || exists p :: p in urbits && urbits[p].httpPort == http
        invariant ames == 34343 || exists p :: p in urbits && urbits[p].amesPort == ames
        decreases |remaining|
      {
        var p :| p in remaining;
        if urbits[p].httpPort >= http {
          http := urbits[p].httpPort;
        }
        if urbits[p].amesPort >= ames {
          ames := urbits[p].amesPort;
        }
        remaining := remaining - {p};
      }
      http := http + 1;
      ames := ames + 1;
    }

    /** The bookkeeping of `add_urbit`: append to `config['piers']` and enter the
        pier in `_urbits` (false: `piers` is not a list, AttributeError). */
    method AddUrbit(patp: string, pier: Pier) returns (ok: bool)
      requires Valid()
      modifies this`config, this`urbits
      ensures Valid()
      ensures ok == old(config)["piers"].JArr?
      ensures ok ==> config == old(config)["piers" := JArr(old(config)["piers"].items + [JStr(patp)])]
      ensures ok ==> urbits == old(urbits)[patp := pier]
      ensures !ok ==> config == old(config) && urbits == old(urbits)
    {
      if config["piers"].JArr? {
        config := config["piers" := JArr(config["piers"].items + [JStr(patp)])];
        urbits := urbits[patp := pier];
        ok := true;
      } else {
        ok := false;
      }
    }

    /** The bookkeeping of `boot_new_urbit`: no name is a 400; otherwise the pier gets
        fresh ports and is added. The new ports clash with no other pier's. */
    method BootNewUrbit(patp: Option<string>, defaultNetwork: string) returns (ok: bool)
      requires Valid()
      modifies this`config, this`urbits
      ensures Valid()
      ensures patp.None? ==> !ok && config == old(config) && urbits == old(urbits)
      ensures patp.Some? ==> (ok <==> old(config)["piers"].JArr?)
      ensures ok ==> patp.Some? && urbits.Keys == old(urbits).Keys + {patp.value}
      ensures ok ==> forall q :: q in old(urbits) && q != patp.value ==> urbits[q] == old(urbits)[q]
      ensures ok ==> forall q :: q in old(urbits) ==>
        urbits[patp.value].httpPort > old(urbits)[q].httpPort && urbits[patp.value].amesPort > old(urbits)[q].amesPort
      ensures PortsDistinct(old(urbits)) ==> PortsDistinct(urbits)
    {
      if patp.None? {
        return false;
      }
      var http, ames := GetOpenUrbitPorts();
      ok := AddUrbit(patp.value, Pier(http, ames, defaultNetwork));
    }

    /** The bookkeeping of `removeUrbit`. A missing pier is a KeyError before any
        change. Otherwise the pier leaves `_urbits` and `_minios` first, and the removal
        from `config['piers']` can then still fail (ValueError when it is not listed). */
    method RemoveUrbit(patp: string) returns (ok: bool)
      requires Valid()
      modifies this`config, this`urbits, this`minios
      ensures Valid()
      ensures patp !in old(urbits) ==> !ok && config == old(config) && urbits == old(urbits) && minios == old(minios)
      ensures patp in old(urbits) ==> urbits == old(urbits) - {patp} && minios == old(minios) - {patp}
      ensures ok <==> patp in old(urbits) && old(config)["piers"].JArr? && JStr(patp) in old(config)["piers"].items
      ensures ok ==> config == old(config)["piers" := JArr(RemoveFirst(old(config)["piers"].items, JStr(patp)))]
      ensures !ok ==> config == old(config)
    {
      if patp !in urbits {
        return false;
      }
      urbits := urbits - {patp};
      minios := minios - {patp};
      if config["piers"].JArr? && JStr(patp) in config["piers"].items {
        config := config["piers" := JArr(RemoveFirst(config["piers"].items, JStr(patp)))];
        ok := true;
      } else {
        ok := false;
      }
    }

    /** `toggle_pier_network`: `setNetwork(patp, network)` is the container's exit code;
        the pier records the new network when it is 0 (200), otherwise nothing changes (400). */
    method TogglePierNetwork(patp: string, wgRunning: bool, setNetwork: (string, string) -> int) returns (code: int)
      requires Valid() && patp in urbits
      modifies this`urbits
      ensures var target := NetworkTarget(old(urbits)[patp].network, config["wgRegistered"], wgRunning);
        && code == (if setNetwork(patp, target) == 0 then 200 else 400)
        && urbits == (if code == 200 then old(urbits)[patp := old(urbits)[patp].(network := target)] else old(urbits))
    {
      var target := NetworkTarget(urbits[patp].network, config["wgRegistered"], wgRunning);
      if setNetwork(patp, target) == 0 {
        urbits := urbits[patp := urbits[patp].(network := target)];
        code := 200;
      } else {
        code := 400;
      }
    }

    /** `toggle_anchor_off`: every tunnel pier is toggled (and so sent to 'none'),
        then the buckets and the tunnel are stopped; the answer is always 200. */
    method ToggleAnchorOff(wgRunning: bool, setNetwork: (string, string) -> int) returns (code: int)
      requires Valid()
      modifies this`urbits, this`minIOOn, this`tunnelUp
      ensures code == 200 && !minIOOn && !tunnelUp
      ensures urbits.Keys == old(urbits).Keys
      ensures forall p :: p in urbits ==> urbits[p] == AnchorOffPier(p, old(urbits)[p], setNetwork)
    {
      var remaining := urbits.Keys;
      ghost var start := urbits;
      while remaining != {}
        invariant remaining <= start.Keys && urbits.Keys == start.Keys
        invariant forall p :: p in start && p !in remaining ==> urbits[p] == AnchorOffPier(p, start[p], setNetwork)
        invariant forall p :: p in remaining ==> urbits[p] == start[p]
        decreases |remaining|
      {
        var p :| p in remaining;
        if urbits[p].network == "wireguard" {
          WireguardPierGoesLocal(config["wgRegistered"], wgRunning);
          var _ := TogglePierNetwork(p, wgRunning, setNetwork);
        }
        remaining := remaining - {p};
      }
      minIOOn := false;
      tunnelUp := false;
      code := 200;
    }

    /** `change_wireguard_url`: the new endpoint is recorded and registration cleared,
        the anchor is switched off and fresh keys are stored; the answer is always 200. */
    method ChangeWireguardUrl(url: string, wgRunning: bool, setNetwork: (string, string) -> int, pubkey: string, privkey: string) returns (code: int)
      requires Valid()
      modifies this`config, this`urbits, this`minIOOn, this`tunnelUp
      ensures Valid()
      ensures code == 200
      ensures config == old(config)["endpointUrl" := JStr(url)]["wgRegistered" := JBool(false)]
                                   ["pubkey" := JStr(pubkey)]["privkey" := JStr(privkey)]
      ensures !minIOOn && !tunnelUp
      ensures forall p :: p in urbits ==> urbits[p].network != "wireguard" || setNetwork(p, "none") != 0
      ensures urbits.Keys == old(urbits).Keys
      ensures forall p :: p in urbits ==> urbits[p] == AnchorOffPier(p, old(urbits)[p], setNetwork)
    {
      config := config["endpointUrl" := JStr(url)]["wgRegistered" := JBool(false)];
      var _ := ToggleAnchorOff(wgRunning, setNetwork);
      config := config["pubkey" := JStr(pubkey)]["privkey" := JStr(privkey)];
      code := if config["endpointUrl"] == JStr(url) then 200 else 400;
    }

    /** `set_update_mode`; the watchtower container restart is a collaborator. */
    method SetUpdateMode() returns (code: int)
      requires Valid()
      modifies this`config
      ensures Valid()
      ensures code == 200
      ensures config == old(config)["updateMode" := NextUpdateMode(old(config)["updateMode"])]
    {
      if config["updateMode"] == JStr("auto") {
        config := config["updateMode" := JStr("off")];
      } else {
        config := config["updateMode" := JStr("auto")];
      }
      code := 200;
    }
  }

  /** Adding a pier that is not yet listed and then removing it restores the list. */
  lemma AddThenRemovePier(piers: seq<Json>, patp: string)
    requires JStr(patp) !in piers
    ensures JStr(patp) in piers + [JStr(patp)]
    ensures RemoveFirst(piers + [JStr(patp)], JStr(patp)) == piers
  {
    if piers != [] {
      assert (piers + [JStr(patp)])[1..] == piers[1..] + [JStr(patp)];
      AddThenRemovePier(piers[1..], patp);
      assert [piers[0]] + piers[1..] == piers;
    }
  }
}
